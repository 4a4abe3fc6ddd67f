/** Whole runs of the paper executor: what its trades can gain, and when its snapshots are accepted. */
module PaperRuns {
  import opened Decimals
  import opened Domain
  import opened Machine
  import opened Execution
  import opened Lifetime
  import opened Trades
  import opened PaperTrading
  import Confluence
  import DayLimit
  import Persist
  import Resume
  import Risk
  import WorstDay

  // ---- No free money ----

  /** A paper fill of a buy at a reference price of at least `r`. */
  ghost predicate PaperFillAt(f: Fill, r: real) {
    && f.qty >= 0.0 && OnGrid(f.qty)
    && f.priceUsd >= Round12(r)
    && f.notionalUsd >= f.priceUsd * f.qty - HALF_ULP
    && f.feeUsd >= 0.0
  }

  lemma PaperBuyFillsAt(cfg: Config, fails: (Mint, nat) -> bool, o: Order, r: real)
    requires cfg.Valid() && o.BuyOrder? && Paper(cfg, fails)(o).Filled? && r <= o.priceUsd
    ensures PaperFillAt(Paper(cfg, fails)(o).fill, r)
  {
    hide Paper, BuyPrice, Round12, OnGrid, SettledFill;
    BuyIsAccepted(cfg, fails, o);
    var p0 := BuyPrice(cfg, o.budgetUsd, o.priceUsd, o.liquidityUsd);
    SettlementBounds(cfg, BuySide, o.mint, o.budgetUsd / p0, p0, o.now, (o.mint, o.id));
    RoundMonotone(r, p0);
  }

  /** What a quantity is worth at a settled price. */
  function Valued(price: real, qty: real): real { Round12(price) * qty }

  lemma ValuedAdds(price: real, a: real, b: real)
    ensures Valued(price, a + b) == Valued(price, a) + Valued(price, b)
    ensures Valued(price, 0.0) == 0.0
  {
    hide Round12;
    Distribute(a, b, Round12(price));
  }

  lemma FillIsValued(f: Fill, r: real)
    requires PaperFillAt(f, r)
    ensures f.notionalUsd + f.feeUsd >= Valued(r, f.qty) - HALF_ULP
  {
    hide Round12;
    MulMonotone(f.qty, Round12(r), f.priceUsd);
  }

  lemma {:induction false} PaperSums(fills: seq<Fill>, r: real)
    requires forall f :: f in fills ==> PaperFillAt(f, r)
    ensures OnGrid(Qty(fills)) && Qty(fills) >= 0.0
    ensures Cost(fills) >= Valued(r, Qty(fills)) - |fills| as real * HALF_ULP
  {
    hide Valued, OnGrid;
    if fills == [] {
      assert OnGrid(0.0) by { NothingOnGrid(); }
      ValuedAdds(r, 0.0, 0.0);
    } else {
      var front, last := fills[..|fills| - 1], fills[|fills| - 1];
      PaperSums(front, r);
      assert PaperFillAt(last, r);
      GridClosed(Qty(front), last.qty);
      FillIsValued(last, r);
      ValuedAdds(r, Qty(front), last.qty);
    }
  }

  lemma NothingOnGrid()
    ensures OnGrid(0.0)
  {}

  lemma PaperLife(cfg: Config, fails: (Mint, nat) -> bool, life: seq<Entry>, r: real)
    requires cfg.Valid()
    requires forall i :: 0 <= i < |Fills(life)| ==>
      && FilledOrders(life)[i].BuyOrder?
      && Paper(cfg, fails)(FilledOrders(life)[i]) == Filled(Fills(life)[i])
    requires forall o :: o in FilledOrders(life) ==> r <= o.priceUsd
    ensures forall f :: f in Fills(life) ==> PaperFillAt(f, r)
  {
    hide Paper, PaperFillAt;
    forall f | f in Fills(life) ensures PaperFillAt(f, r) {
      var i :| 0 <= i < |Fills(life)| && Fills(life)[i] == f;
      PaperBuyFillsAt(cfg, fails, FilledOrders(life)[i], r);
    }
  }

  /** The sale has a reference price no higher than that of any buy of its life. */
  predicate PricedNoHigher(sale: Sale) {
    forall o :: o in FilledOrders(sale.life) ==> sale.order.priceUsd <= o.priceUsd
  }

  /** The executor answered the sell and every order of the life it ended. */
  ghost predicate AnsweredSale(exec: Executor, sale: Sale) {
    exec(sale.order) == Filled(sale.fill) && Answered(exec, sale.life)
  }

  lemma {:induction false} SalesAreAnswered(exec: Executor, tape: seq<Entry>)
    requires Answered(exec, tape)
    ensures forall sale :: sale in Sales(tape) ==> AnsweredSale(exec, sale)
  {
    if tape != [] {
      var front, e := tape[..|tape| - 1], tape[|tape| - 1];
      SalesAreAnswered(exec, front);
      if IsSale(e) {
        LifeIsOnTape(front, e.order.mint);
      }
    }
  }

  /** A paper sell of a settled quantity yields at most its settled value and half a unit. */
  lemma SellIsValued(cfg: Config, fails: (Mint, nat) -> bool, o: Order)
    requires cfg.Valid() && o.SellOrder? && OnGrid(o.qty) && Paper(cfg, fails)(o).Filled?
    ensures Proceeds(Paper(cfg, fails)(o).fill) <= Valued(o.priceUsd, o.qty) + HALF_ULP
  {
    hide Paper, Round12, Proceeds;
    SellBounds(cfg, fails, o);
    RoundIdentity(o.qty);
  }

  lemma GainOf(n: nat, value: real, cost: real, proceeds: real)
    requires proceeds <= value + HALF_ULP && cost >= value - n as real * HALF_ULP
    ensures proceeds - cost <= (n + 1) as real * HALF_ULP
  {}

  lemma SaleGain(cfg: Config, fails: (Mint, nat) -> bool, t: ClosedTrade, sale: Sale)
    requires cfg.Valid()
    ensures SumsUp(cfg, t, sale) && AnsweredSale(Paper(cfg, fails), sale) && PricedNoHigher(sale) ==>
      t.pnlUsd <= (|Fills(sale.life)| + 1) as real * HALF_ULP
  {
    hide Paper, Round12, PaperFillAt, GainPct, Valued;
    if SumsUp(cfg, t, sale) && AnsweredSale(Paper(cfg, fails), sale) && PricedNoHigher(sale) {
      var fills, r := Fills(sale.life), sale.order.priceUsd;
      FillsAnswerOrders(Paper(cfg, fails), sale.life);
      PaperLife(cfg, fails, sale.life, r);
      PaperSums(fills, r);
      SellIsValued(cfg, fails, sale.order);
      GainOf(|fills|, Valued(r, sale.order.qty), t.costUsd, t.proceedsUsd);
    }
  }

  /** No free money. In any paper run, every logged trade that was sold at a reference price no
      higher than the one each of its `n` slices was bought at gains at most (n + 1) half-units of
      the 12th decimal place: no chain of roundings of price, quantity, notional and fee creates
      money. */
  lemma NoFreeMoney(cfg: Config, fails: (Mint, nat) -> bool, boot: Time, steps: seq<Step>, i: nat)
    requires cfg.Valid() && LegalRun(cfg, Paper(cfg, fails), Initial(cfg, boot), steps)
    ensures var s := Run(cfg, Paper(cfg, fails), Initial(cfg, boot), steps);
      && |s.closed| == |Sales(s.tape)|
      && (i < |s.closed| && PricedNoHigher(Sales(s.tape)[i]) ==>
            s.closed[i].pnlUsd <= (|Fills(Sales(s.tape)[i].life)| + 1) as real * HALF_ULP)
  {
    hide Run, LegalRun, Paper, SumsUp, PricedNoHigher;
    var exec := Paper(cfg, fails);
    var s := Run(cfg, exec, Initial(cfg, boot), steps);
    PaperIsFaithful(cfg, fails);
    TradeLogIsFaithful(cfg, exec, boot, steps);
    RunIsAnswered(cfg, exec, boot, steps);
    SalesAreAnswered(exec, s.tape);
    if i < |s.closed| && PricedNoHigher(Sales(s.tape)[i]) {
      SaleGain(cfg, fails, s.closed[i], Sales(s.tape)[i]);
    }
  }

  // ---- Snapshots of paper runs ----

  /** A paper fill is never negative, and costs something only if it is substantial. */
  predicate PaperWorth(f: Fill) {
    && f.qty >= 0.0 && f.priceUsd >= 0.0 && f.notionalUsd + f.feeUsd >= 0.0
    && (f.notionalUsd + f.feeUsd > 0.0 ==> Substantial(f))
  }

  lemma PaperFillsAreWorth(cfg: Config, fails: (Mint, nat) -> bool, o: Order)
    requires cfg.Valid() && o.BuyOrder? && Paper(cfg, fails)(o).Filled?
    ensures PaperWorth(Paper(cfg, fails)(o).fill)
  {
    hide Paper, BuyPrice, Round12, Notional, FeeOf, OnGrid;
    BuyIsAccepted(cfg, fails, o);
    var p0 := BuyPrice(cfg, o.budgetUsd, o.priceUsd, o.liquidityUsd);
    SettlementBounds(cfg, BuySide, o.mint, o.budgetUsd / p0, p0, o.now, (o.mint, o.id));
    var f := Paper(cfg, fails)(o).fill;
    NotionalBounds(f.priceUsd, f.qty);
    ZeroFee(cfg);
  }

  lemma {:induction false} WorthIffSomeSubstantial(fills: seq<Fill>)
    requires forall f :: f in fills ==> PaperWorth(f)
    ensures Qty(fills) >= 0.0 && Cost(fills) >= 0.0
    ensures Cost(fills) > 0.0 ==> Qty(fills) > 0.0
    ensures Cost(fills) > 0.0 <==> exists i :: 0 <= i < |fills| && Substantial(fills[i])
  {
    if fills != [] {
      var front, last := fills[..|fills| - 1], fills[|fills| - 1];
      WorthIffSomeSubstantial(front);
      assert PaperWorth(last) && last == fills[|fills| - 1];
      if i :| 0 <= i < |front| && Substantial(front[i]) {
        assert Substantial(fills[i]);
      }
      if i :| 0 <= i < |fills| && Substantial(fills[i]) {
        assert i < |front| ==> Substantial(front[i]);
      }
    }
  }

  /** Some filled slice of the life is no dust. */
  ghost predicate SomeSliceSurvives(cfg: Config, life: seq<Entry>) {
    exists i :: 0 <= i < |FilledOrders(life)| && NoDust(cfg, FilledOrders(life)[i])
  }

  predicate NoDust(cfg: Config, o: Order) { o.BuyOrder? && SurvivesSettlement(cfg, o) }

  lemma LifeHoldsIff(cfg: Config, fails: (Mint, nat) -> bool, life: seq<Entry>)
    requires cfg.Valid() && Answered(Paper(cfg, fails), life)
    ensures Qty(Fills(life)) > 0.0 && Cost(Fills(life)) > 0.0 <==> SomeSliceSurvives(cfg, life)
  {
    hide Paper, SurvivesSettlement, PaperWorth;
    var fills, orders := Fills(life), FilledOrders(life);
    FillsAnswerOrders(Paper(cfg, fails), life);
    forall i | 0 <= i < |fills|
      ensures PaperWorth(fills[i]) && (Substantial(fills[i]) <==> NoDust(cfg, orders[i]))
    {
      PaperFillsAreWorth(cfg, fails, orders[i]);
      SubstantialExactlyIfNotDust(cfg, fails, orders[i]);
    }
    WorthIffSomeSubstantial(fills);
    if SomeSliceSurvives(cfg, life) {
      var i :| 0 <= i < |orders| && NoDust(cfg, orders[i]);
      assert Substantial(fills[i]);
    }
  }

  /** The snapshot of a paper run is accepted if and only if every open position has at least one
      filled slice that was large enough to survive settlement. */
  lemma PaperSnapshotAcceptedIff(cfg: Config, fails: (Mint, nat) -> bool, boot: Time,
      steps: seq<Step>, reboot: Time, snap: Persist.EngineState)
    requires cfg.Valid() && LegalRun(cfg, Paper(cfg, fails), Initial(cfg, boot), steps)
    ensures var s := Run(cfg, Paper(cfg, fails), Initial(cfg, boot), steps);
      Persist.SnapshotOf(s, snap) ==>
        (Persist.Sound(cfg, Persist.Resumed(cfg, reboot, snap, s.tape)) <==>
          forall m :: m in s.positions ==> SomeSliceSurvives(cfg, LifeOf(s.tape, m)))
  {
    hide Run, LegalRun, Paper, SomeSliceSurvives, Persist.Sound, Breakout;
    var exec := Paper(cfg, fails);
    var s := Run(cfg, exec, Initial(cfg, boot), steps);
    PaperIsFaithful(cfg, fails);
    RunIsAnswered(cfg, exec, boot, steps);
    if Persist.SnapshotOf(s, snap) {
      Resume.SnapshotAcceptedIff(cfg, exec, boot, steps, reboot, snap);
    }
    forall m | m in s.positions
      ensures Persist.Holds(s.positions[m]) <==> SomeSliceSurvives(cfg, LifeOf(s.tape, m))
    {
      PositionClosedForm(cfg, exec, boot, steps, m);
      LifeIsOnTape(s.tape, m);
      LifeHoldsIff(cfg, fails, LifeOf(s.tape, m));
    }
  }

  // ---- The paper executor answers by content ----

  lemma SettledByContent(cfg: Config, side: Side, mint: Mint, qty: real, rawPrice: real, now: Time,
      a: (Mint, nat), b: (Mint, nat))
    ensures SettledFill(cfg, side, mint, qty, rawPrice, now, a) ==
      SettledFill(cfg, side, mint, qty, rawPrice, now, b).(orderId := a)
  {
    hide Round12, Notional, FeeOf;
  }

  /** A paper executor whose injected failures do not look at the order number answers by content. */
  lemma PaperIsIdBlind(cfg: Config, fails: (Mint, nat) -> bool)
    requires forall m: Mint, i: nat, j: nat :: fails(m, i) == fails(m, j)
    ensures Confluence.IdBlind(Paper(cfg, fails))
  {
    forall o: Order, n: nat
      ensures Confluence.Anonymous(Paper(cfg, fails)(Confluence.Renumbered(o, n))) ==
              Confluence.Anonymous(Paper(cfg, fails)(o))
    {
      PaperAnswersByContent(cfg, fails, o, n);
    }
  }

  lemma PaperAnswersByContent(cfg: Config, fails: (Mint, nat) -> bool, o: Order, n: nat)
    requires fails(o.mint, n) == fails(o.mint, o.id)
    ensures Confluence.Anonymous(Paper(cfg, fails)(Confluence.Renumbered(o, n))) ==
            Confluence.Anonymous(Paper(cfg, fails)(o))
  {
    hide PaperFill, SlippageFor, Slipped, PaperSell;
    var p := Confluence.Renumbered(o, n);
    if o.BuyOrder? {
      var raw := BuyPrice(cfg, o.budgetUsd, o.priceUsd, o.liquidityUsd);
      var eff := SlippageFor(cfg, o.budgetUsd, o.liquidityUsd);
      if raw != 0.0 {
        FilledByContent(cfg, BuySide, o.mint, o.budgetUsd / raw, o.priceUsd, eff, o.now, (o.mint, n), (o.mint, o.id));
      }
    } else {
      var notional := o.qty * o.priceUsd;
      var eff := SlippageFor(cfg, notional, o.liquidityUsd);
      SellIsFill(cfg, o, notional);
      SellIsFill(cfg, p, notional);
      FilledByContent(cfg, SellSide, o.mint, o.qty, o.priceUsd, eff, o.now, (o.mint, n), (o.mint, o.id));
    }
  }

  lemma FilledByContent(cfg: Config, side: Side, mint: Mint, qty: real, refPrice: real, eff: real, now: Time,
      a: (Mint, nat), b: (Mint, nat))
    ensures Confluence.Anonymous(PaperFill(cfg, side, mint, qty, refPrice, eff, now, a)) ==
            Confluence.Anonymous(PaperFill(cfg, side, mint, qty, refPrice, eff, now, b))
  {
    hide SettledFill, Slipped;
    SettledByContent(cfg, side, mint, qty, Slipped(side, refPrice, eff), now, a, b);
  }

  // ---- What a day of paper trading can lose ----

  lemma PaperIsFair(cfg: Config, fails: (Mint, nat) -> bool)
    requires cfg.Valid() && cfg.feeBps <= 10_000
    ensures DayLimit.Fair(cfg, Paper(cfg, fails), AnyPrice(), FlatSlack(cfg))
  {
    hide Paper, FlatSlack;
    PaperIsFaithful(cfg, fails);
    PaperIsBounded(cfg, fails);
    forall o: Order ensures WorstDay.ChargesAt(Paper(cfg, fails), o) {
      if o.BuyOrder? && Paper(cfg, fails)(o).Filled? {
        PaperFillsAreWorth(cfg, fails, o);
      }
    }
  }

  /** Paper trading loses on no day more than the loss limit and the capital of a full book, a figure
      that the configuration alone determines. */
  lemma PaperDayLossIsLimited(cfg: Config, fails: (Mint, nat) -> bool, boot: Time, steps: seq<Step>)
    requires cfg.Valid() && cfg.dailyLossLimitPct > 0.0 && cfg.feeBps <= 10_000
    requires LegalRun(cfg, Paper(cfg, fails), Initial(cfg, boot), steps)
    ensures Run(cfg, Paper(cfg, fails), Initial(cfg, boot), steps).controls.state.dayRealizedPnl >=
      Risk.LossLimit(cfg) - DayLimit.CapitalCap(cfg, FlatSlack(cfg))
  {
    hide Paper, Run, LegalRun, DayLimit.Fair, FlatSlack, DayLimit.CapitalCap, Risk.LossLimit;
    PaperIsFair(cfg, fails);
    DayLimit.DayLossIsLimited(cfg, Paper(cfg, fails), boot, steps, AnyPrice(), FlatSlack(cfg));
  }
}
