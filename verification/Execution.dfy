/** Order execution: what the engine may rely on from any executor, and the paper executor. */
module Execution {
  import opened Decimals
  import opened Domain

  /** The minimum any executor provides: a buy fill is for the ordered mint, and neither its
      quantity nor its price is negative. */
  ghost predicate Faithful(exec: Executor) {
    forall o: Order :: FaithfulAt(exec, o)
  }

  predicate FaithfulAt(exec: Executor, o: Order) {
    o.BuyOrder? && exec(o).Filled? ==>
      var f := exec(o).fill;
      f.mint == o.mint && f.qty >= 0.0 && f.priceUsd >= 0.0
  }

  /** A fill that is worth recording: positive quantity, price and cost. */
  predicate Substantial(f: Fill) {
    f.qty > 0.0 && f.priceUsd > 0.0 && f.notionalUsd + f.feeUsd > 0.0
  }

  /** Depth-aware slippage in percent. */
  function EffectiveSlippagePct(basePct: real, impactCoeff: real, maxPct: real,
                                notionalUsd: real, liquidityUsd: real): real {
    if liquidityUsd <= 0.0 || notionalUsd <= 0.0 then Min(basePct, maxPct)
    else
      var depthPct := notionalUsd / liquidityUsd * 100.0;
      Min(basePct + impactCoeff * depthPct, maxPct)
  }

  function SlippageFor(cfg: Config, notionalUsd: real, liquidityUsd: real): real {
    EffectiveSlippagePct(cfg.paperSlippagePct, cfg.paperImpactCoeff, cfg.paperMaxSlippagePct,
                         notionalUsd, liquidityUsd)
  }

  /** The fill price before settlement. */
  function Slipped(side: Side, refPrice: real, effSlipPct: real): real {
    match side
    case BuySide => refPrice * (1.0 + effSlipPct / 100.0)
    case SellSide => refPrice * (1.0 - effSlipPct / 100.0)
  }

  function Notional(priceUsd: real, qty: real): real {
    Round12(priceUsd * qty)
  }

  function RawFee(cfg: Config, notionalUsd: real): real {
    notionalUsd * cfg.feeBps as real / 10_000.0
  }

  function FeeOf(cfg: Config, notionalUsd: real): real {
    Round12(RawFee(cfg, notionalUsd))
  }

  /** A fill settled at 12 decimal places: price and quantity first, then notional, then fee. */
  function SettledFill(cfg: Config, side: Side, mint: Mint, qty: real, rawPrice: real, now: Time,
                       orderId: (Mint, nat)): Fill {
    var price, settled := Round12(rawPrice), Round12(qty);
    var notional := Notional(price, settled);
    Fill(orderId, mint, side, settled, price, notional, FeeOf(cfg, notional), now)
  }

  function PaperFill(cfg: Config, side: Side, mint: Mint, qty: real, refPrice: real,
                     effSlipPct: real, now: Time, orderId: (Mint, nat)): Reply {
    if refPrice <= 0.0 || qty <= 0.0 then Failed(Rejected)
    else if Slipped(side, refPrice, effSlipPct) <= 0.0 then Failed(Rejected)
    else Filled(SettledFill(cfg, side, mint, qty, Slipped(side, refPrice, effSlipPct), now, orderId))
  }

  /** The unrounded fill price of a paper buy. */
  function BuyPrice(cfg: Config, budgetUsd: real, priceUsd: real, liquidityUsd: real): real {
    Slipped(BuySide, priceUsd, SlippageFor(cfg, budgetUsd, liquidityUsd))
  }

  /** A paper buy. A zero fill price (impossible for a validated configuration, see
      `BuyPricePositive`) is rejected where the original would divide by zero. */
  function PaperBuy(cfg: Config, o: Order): Reply
    requires o.BuyOrder?
  {
    if o.budgetUsd <= 0.0 || o.priceUsd <= 0.0 then Failed(Rejected)
    else
      var eff := SlippageFor(cfg, o.budgetUsd, o.liquidityUsd);
      var fillPrice := BuyPrice(cfg, o.budgetUsd, o.priceUsd, o.liquidityUsd);
      if fillPrice == 0.0 then Failed(Rejected)
      else PaperFill(cfg, BuySide, o.mint, o.budgetUsd / fillPrice, o.priceUsd, eff, o.now, (o.mint, o.id))
  }

  function PaperSell(cfg: Config, o: Order): Reply
    requires o.SellOrder?
  {
    var eff := SlippageFor(cfg, o.qty * o.priceUsd, o.liquidityUsd);
    PaperFill(cfg, SellSide, o.mint, o.qty, o.priceUsd, eff, o.now, (o.mint, o.id))
  }

  /** The paper executor. `fails` stands for the failure injection, which depends only on the
      order id. */
  function Paper(cfg: Config, fails: (Mint, nat) -> bool): Executor {
    (o: Order) =>
      if fails(o.mint, o.id) then Failed(Rejected)
      else if o.BuyOrder? then PaperBuy(cfg, o)
      else PaperSell(cfg, o)
  }

  // ---- Slippage ----

  /** Slippage stays within zero and the cap, and is nondecreasing in the order size. */
  lemma SlippageBounds(cfg: Config, a: real, b: real, liq: real)
    requires cfg.Valid() && a <= b
    ensures 0.0 <= SlippageFor(cfg, a, liq) <= SlippageFor(cfg, b, liq) <= cfg.paperMaxSlippagePct
  {
    ImpactBounds(cfg, a, liq);
    ImpactBounds(cfg, b, liq);
    if liq > 0.0 {
      DivMonotone(a, b, liq);
      MulMonotone(cfg.paperImpactCoeff, a / liq * 100.0, b / liq * 100.0);
    }
  }

  lemma ImpactBounds(cfg: Config, a: real, liq: real)
    requires cfg.Valid()
    ensures 0.0 <= SlippageFor(cfg, a, liq) <= cfg.paperMaxSlippagePct
    ensures a > 0.0 && liq > 0.0 ==> cfg.paperImpactCoeff * (a / liq * 100.0) >= 0.0
  {
    if a > 0.0 && liq > 0.0 {
      DivMonotone(0.0, a, liq);
      MulMonotone(cfg.paperImpactCoeff, 0.0, a / liq * 100.0);
    }
  }

  lemma BuyPricePositive(cfg: Config, budget: real, price: real, liq: real)
    requires cfg.Valid() && price > 0.0
    ensures BuyPrice(cfg, budget, price, liq) >= price
  {
    SlippageBounds(cfg, budget, budget, liq);
    MulMonotone(price, 1.0, 1.0 + SlippageFor(cfg, budget, liq) / 100.0);
  }
}
