/** What the paper executor guarantees through all its roundings: error bounds, the funnel's
    benefit, when its fills are substantial, and solvency. */
module PaperTrading {
  import opened Decimals
  import opened Domain
  import opened Machine
  import opened Execution
  import Solvency
  import Strategy

  // ---- One buy ----

  /** The paper executor accepts a buy exactly if it is not failed on purpose and its budget and
      price are positive, and then settles it at the slipped price. */
  lemma BuyIsAccepted(cfg: Config, fails: (Mint, nat) -> bool, o: Order)
    requires cfg.Valid() && o.BuyOrder?
    ensures Paper(cfg, fails)(o).Filled? <==>
      !fails(o.mint, o.id) && o.budgetUsd > 0.0 && o.priceUsd > 0.0
    ensures Paper(cfg, fails)(o).Filled? ==>
      var p0 := BuyPrice(cfg, o.budgetUsd, o.priceUsd, o.liquidityUsd);
      && p0 >= o.priceUsd
      && o.budgetUsd / p0 > 0.0
      && Paper(cfg, fails)(o).fill ==
         SettledFill(cfg, BuySide, o.mint, o.budgetUsd / p0, p0, o.now, (o.mint, o.id))
  {
    hide SlippageFor, SettledFill, Slipped;
    if o.priceUsd > 0.0 {
      BuyPricePositive(cfg, o.budgetUsd, o.priceUsd, o.liquidityUsd);
      if o.budgetUsd > 0.0 {
        PositiveQuotient(o.budgetUsd, BuyPrice(cfg, o.budgetUsd, o.priceUsd, o.liquidityUsd));
      }
    }
  }

  lemma FeeBounds(cfg: Config, notional: real)
    requires notional >= 0.0
    ensures 0.0 <= FeeOf(cfg, notional) <= notional * (cfg.feeBps as real / 10_000.0) + HALF_ULP
  {
    hide RawFee, Round12;
    RawFeeBounds(cfg, notional);
    Settled(RawFee(cfg, notional));
  }

  lemma RawFeeBounds(cfg: Config, notional: real)
    requires notional >= 0.0
    ensures RawFee(cfg, notional) == notional * (cfg.feeBps as real / 10_000.0)
    ensures RawFee(cfg, notional) >= 0.0
    ensures cfg.feeBps <= 10_000 ==> RawFee(cfg, notional) <= notional
  {
    var bps := cfg.feeBps as real;
    assert notional * bps >= 0.0;
    if bps <= 10_000.0 {
      assert notional * (10_000.0 - bps) >= 0.0;
      assert notional * (10_000.0 - bps) == notional * 10_000.0 - notional * bps;
    }
  }

  /** What settlement does to positive values: nothing becomes negative, the quantity and the
      notional are on the grid, and each of price, quantity and notional moves by at most half a
      unit of the 12th place. */
  lemma SettlementBounds(cfg: Config, side: Side, mint: Mint, qty: real,
      rawPrice: real, now: Time, orderId: (Mint, nat))
    requires qty > 0.0 && rawPrice > 0.0
    ensures var f := SettledFill(cfg, side, mint, qty, rawPrice, now, orderId);
      && f.priceUsd == Round12(rawPrice) && rawPrice - HALF_ULP <= f.priceUsd <= rawPrice + HALF_ULP
      && f.qty == Round12(qty) && qty - HALF_ULP <= f.qty <= qty + HALF_ULP
      && f.priceUsd >= 0.0 && f.qty >= 0.0 && f.notionalUsd >= 0.0 && f.feeUsd >= 0.0
      && OnGrid(f.qty) && OnGrid(f.notionalUsd)
      && f.priceUsd * f.qty - HALF_ULP <= f.notionalUsd <= f.priceUsd * f.qty + HALF_ULP
      && f.feeUsd <= f.notionalUsd * (cfg.feeBps as real / 10_000.0) + HALF_ULP
  {
    hide Round12, OnGrid, Notional, FeeOf;
    var f := SettledFill(cfg, side, mint, qty, rawPrice, now, orderId);
    Settled(rawPrice);
    Settled(qty);
    NotionalBounds(f.priceUsd, f.qty);
    FeeBounds(cfg, f.notionalUsd);
  }

  lemma NotionalBounds(price: real, qty: real)
    requires price >= 0.0 && qty >= 0.0
    ensures Notional(price, qty) >= 0.0 && OnGrid(Notional(price, qty))
    ensures price * qty - HALF_ULP <= Notional(price, qty) <= price * qty + HALF_ULP
    ensures Notional(price, qty) > 0.0 <==> price * qty > HALF_ULP
  {
    var product := price * qty;
    assert product >= 0.0;
    Settled(product);
    RoundPositive(product);
  }

  /** The error of a product both of whose factors carry a settlement error. */
  lemma ProductError(p0: real, q0: real, p: real, q: real)
    requires p0 > 0.0 && q >= 0.0
    requires p0 - HALF_ULP <= p <= p0 + HALF_ULP && q0 - HALF_ULP <= q <= q0 + HALF_ULP
    ensures p0 * q0 - HalfUlps(q + p0) <= p * q <= p0 * q0 + HalfUlps(q + p0)
  {
    ScaledError(q, p - p0);
    ScaledError(p0, q - q0);
    assert p * q == p0 * q0 + p0 * (q - q0) + q * (p - p0);
  }

  lemma NotionalError(budget: real, p0: real, q0: real, p: real, q: real)
    requires p0 * q0 == budget && p0 > 0.0 && p >= 0.0 && q >= 0.0
    requires p0 - HALF_ULP <= p <= p0 + HALF_ULP && q0 - HALF_ULP <= q <= q0 + HALF_ULP
    ensures budget - HalfUlps(q + p0 + 1.0) <= Notional(p, q) <= budget + HalfUlps(q + p0 + 1.0)
  {
    hide Notional;
    ProductError(p0, q0, p, q);
    NotionalBounds(p, q);
  }

  lemma NotionalKept(cfg: Config, side: Side, mint: Mint, qty: real, rawPrice: real,
      now: Time, orderId: (Mint, nat))
    ensures var f := SettledFill(cfg, side, mint, qty, rawPrice, now, orderId);
      f.notionalUsd == Notional(f.priceUsd, f.qty)
  {
    hide Round12, Notional, FeeOf;
  }

  /** Error of a paper buy. Although the quantity is derived from the unrounded price, and price,
      quantity and notional are settled separately, the notional misses the slice by at most half a
      unit of the 12th place times (settled quantity + unrounded price + 1). */
  lemma BuyErrorBound(cfg: Config, fails: (Mint, nat) -> bool, o: Order)
    requires cfg.Valid() && o.BuyOrder? && Paper(cfg, fails)(o).Filled?
    ensures var f := Paper(cfg, fails)(o).fill;
      var p0 := BuyPrice(cfg, o.budgetUsd, o.priceUsd, o.liquidityUsd);
      var err := HalfUlps(f.qty + p0 + 1.0);
      o.budgetUsd - err <= f.notionalUsd <= o.budgetUsd + err
  {
    hide Paper, BuyPrice, SettledFill;
    BuyIsAccepted(cfg, fails, o);
    var p0 := BuyPrice(cfg, o.budgetUsd, o.priceUsd, o.liquidityUsd);
    SettledBuyError(cfg, o, p0);
  }

  lemma SettledBuyError(cfg: Config, o: Order, p0: real)
    requires o.BuyOrder? && p0 > 0.0 && o.budgetUsd / p0 > 0.0
    ensures var f := SettledFill(cfg, BuySide, o.mint, o.budgetUsd / p0, p0, o.now, (o.mint, o.id));
      var err := HalfUlps(f.qty + p0 + 1.0);
      o.budgetUsd - err <= f.notionalUsd <= o.budgetUsd + err
  {
    hide SettledFill;
    var q0 := o.budgetUsd / p0;
    assert p0 * q0 == o.budgetUsd;
    var f := SettledFill(cfg, BuySide, o.mint, q0, p0, o.now, (o.mint, o.id));
    SettlementBounds(cfg, BuySide, o.mint, q0, p0, o.now, (o.mint, o.id));
    NotionalError(o.budgetUsd, p0, q0, f.priceUsd, f.qty);
    NotionalKept(cfg, BuySide, o.mint, q0, p0, o.now, (o.mint, o.id));
  }

  // ---- When paper fills are substantial ----

  /** The order is large enough to survive the settlement of its fill. */
  predicate SurvivesSettlement(cfg: Config, o: Order)
    requires o.BuyOrder?
  {
    var p0 := BuyPrice(cfg, o.budgetUsd, o.priceUsd, o.liquidityUsd);
    && p0 > HALF_ULP
    && o.budgetUsd / p0 > HALF_ULP
    && Round12(p0) * Round12(o.budgetUsd / p0) > HALF_ULP
  }

  /** Positivity is checked before rounding, so the executor contract can fail on dust. A paper
      buy fill is substantial exactly if price, quantity and the product of their settled values
      each exceed half a unit of the 12th decimal place. */
  lemma SubstantialExactlyIfNotDust(cfg: Config, fails: (Mint, nat) -> bool, o: Order)
    requires cfg.Valid() && o.BuyOrder? && Paper(cfg, fails)(o).Filled?
    ensures Substantial(Paper(cfg, fails)(o).fill) <==> SurvivesSettlement(cfg, o)
  {
    hide Paper, BuyPrice, Round12, Notional, FeeOf;
    BuyIsAccepted(cfg, fails, o);
    var f := Paper(cfg, fails)(o).fill;
    var p0 := BuyPrice(cfg, o.budgetUsd, o.priceUsd, o.liquidityUsd);
    var q0 := o.budgetUsd / p0;
    SettlementBounds(cfg, BuySide, o.mint, q0, p0, o.now, (o.mint, o.id));
    RoundPositive(p0);
    RoundPositive(q0);
    assert f.priceUsd == Round12(p0) && f.qty == Round12(q0);
    NotionalBounds(f.priceUsd, f.qty);
    ZeroFee(cfg);
  }

  lemma ZeroFee(cfg: Config)
    ensures FeeOf(cfg, 0.0) == 0.0
  {
    RawFeeBounds(cfg, 0.0);
  }

  /** A slice that would buy at most a tenth of a unit of the 12th decimal place settles to nothing
      at all, although it is filled. */
  lemma DustSettlesToNothing(cfg: Config, fails: (Mint, nat) -> bool, o: Order)
    requires cfg.Valid() && o.BuyOrder? && !fails(o.mint, o.id)
    requires o.budgetUsd > 0.0 && o.priceUsd > 0.0 && o.budgetUsd / o.priceUsd <= 0.0000000000001
    ensures var reply := Paper(cfg, fails)(o);
      && reply.Filled?
      && reply.fill.qty == 0.0 && reply.fill.notionalUsd == 0.0 && reply.fill.feeUsd == 0.0
  {
    hide Paper, BuyPrice, FeeOf;
    BuyIsAccepted(cfg, fails, o);
    var p0 := BuyPrice(cfg, o.budgetUsd, o.priceUsd, o.liquidityUsd);
    SmallQuotient(o.budgetUsd, p0, o.priceUsd);
    RoundMonotone(o.budgetUsd / p0, 0.0000000000001);
    RoundNonNegative(o.budgetUsd / p0);
    ZeroFee(cfg);
  }

  lemma SmallQuotient(x: real, y: real, lo: real)
    requires x > 0.0 && 0.0 < lo <= y
    ensures x / y <= x / lo
  {
    MulMonotone(x / lo, lo, y);
    DivMonotone(x, x / lo * y, y);
    assert x / lo * lo == x && x / lo * y / y == x / lo;
  }

  // ---- The paper executor keeps the minimal contract ----

  lemma PaperIsFaithful(cfg: Config, fails: (Mint, nat) -> bool)
    requires cfg.Valid()
    ensures Faithful(Paper(cfg, fails))
  {
    forall o: Order ensures FaithfulAt(Paper(cfg, fails), o) {
      if o.BuyOrder? && Paper(cfg, fails)(o).Filled? {
        PaperBuyIsFaithful(cfg, fails, o);
      }
    }
  }

  lemma PaperBuyIsFaithful(cfg: Config, fails: (Mint, nat) -> bool, o: Order)
    requires cfg.Valid() && o.BuyOrder? && Paper(cfg, fails)(o).Filled?
    ensures FaithfulAt(Paper(cfg, fails), o)
  {
    hide Paper, BuyPrice, SettledFill;
    BuyIsAccepted(cfg, fails, o);
    var p0 := BuyPrice(cfg, o.budgetUsd, o.priceUsd, o.liquidityUsd);
    SettlementBounds(cfg, BuySide, o.mint, o.budgetUsd / p0, p0, o.now, (o.mint, o.id));
    MintKept(cfg, BuySide, o.mint, o.budgetUsd / p0, p0, o.now, (o.mint, o.id));
  }

  lemma MintKept(cfg: Config, side: Side, mint: Mint, qty: real, rawPrice: real,
      now: Time, orderId: (Mint, nat))
    ensures SettledFill(cfg, side, mint, qty, rawPrice, now, orderId).mint == mint
  {
    hide Round12, FeeOf;
  }

  // ---- One sell ----

  /** A paper sell settles at no more than the settled reference price, and never costs money
      when the fee is at most everything. */
  lemma SellBounds(cfg: Config, fails: (Mint, nat) -> bool, o: Order)
    requires cfg.Valid() && o.SellOrder? && Paper(cfg, fails)(o).Filled?
    ensures o.priceUsd > 0.0 && o.qty > 0.0
    ensures var f := Paper(cfg, fails)(o).fill;
      && f.notionalUsd <= Round12(o.priceUsd) * Round12(o.qty) + HALF_ULP
      && Proceeds(f) <= f.notionalUsd
      && (cfg.feeBps <= 10_000 ==> Proceeds(f) >= 0.0)
  {
    hide SlippageFor, SettledFill, Slipped, Round12;
    var eff := SlippageFor(cfg, o.qty * o.priceUsd, o.liquidityUsd);
    var raw := Slipped(SellSide, o.priceUsd, eff);
    SlippageBounds(cfg, o.qty * o.priceUsd, o.qty * o.priceUsd, o.liquidityUsd);
    assert Paper(cfg, fails)(o) == PaperSell(cfg, o);
    SlippedDown(o.priceUsd, eff);
    var f := SettledFill(cfg, SellSide, o.mint, o.qty, raw, o.now, (o.mint, o.id));
    SettlementBounds(cfg, SellSide, o.mint, o.qty, raw, o.now, (o.mint, o.id));
    RoundMonotone(raw, o.priceUsd);
    MulMonotone(f.qty, f.priceUsd, Round12(o.priceUsd));
    FeeKept(cfg, SellSide, o.mint, o.qty, raw, o.now, (o.mint, o.id));
    NetOfFee(cfg, f.notionalUsd);
  }

  lemma SlippedDown(price: real, eff: real)
    requires price > 0.0 && eff >= 0.0
    ensures Slipped(SellSide, price, eff) <= price
  {
    MulMonotone(price, 1.0 - eff / 100.0, 1.0);
  }

  lemma FeeKept(cfg: Config, side: Side, mint: Mint, qty: real, rawPrice: real,
      now: Time, orderId: (Mint, nat))
    ensures var f := SettledFill(cfg, side, mint, qty, rawPrice, now, orderId);
      f.feeUsd == FeeOf(cfg, f.notionalUsd)
  {
    hide Round12, FeeOf;
  }

  lemma NetOfFee(cfg: Config, notional: real)
    requires notional >= 0.0 && OnGrid(notional)
    ensures Round12(notional - FeeOf(cfg, notional)) <= notional
    ensures cfg.feeBps <= 10_000 ==> Round12(notional - FeeOf(cfg, notional)) >= 0.0
  {
    hide Round12;
    FeeBounds(cfg, notional);
    RoundIdentity(notional);
    RoundMonotone(notional - FeeOf(cfg, notional), notional);
    if cfg.feeBps <= 10_000 {
      FeeAtMostAll(cfg, notional);
      RoundNonNegative(notional - FeeOf(cfg, notional));
    }
  }

  lemma FeeAtMostAll(cfg: Config, notional: real)
    requires notional >= 0.0 && OnGrid(notional) && cfg.feeBps <= 10_000
    ensures FeeOf(cfg, notional) <= notional
  {
    hide RawFee, Round12;
    RawFeeBounds(cfg, notional);
    RoundIdentity(notional);
    RoundMonotone(RawFee(cfg, notional), notional);
  }

  // ---- The price of a paper fill ----

  /** Slippage in percent of an order of `usd`: the base, plus the impact of its share of the pool, up to
      the cap; without a known pool, the base up to the cap. */
  function SlippagePct(cfg: Config, usd: real, poolUsd: real): real {
    var impact := if poolUsd > 0.0 && usd > 0.0 then cfg.paperImpactCoeff * (usd / poolUsd * 100.0) else 0.0;
    if cfg.paperSlippagePct + impact > cfg.paperMaxSlippagePct then cfg.paperMaxSlippagePct
    else cfg.paperSlippagePct + impact
  }

  lemma SlippageIs(cfg: Config, usd: real, poolUsd: real)
    ensures SlippageFor(cfg, usd, poolUsd) == SlippagePct(cfg, usd, poolUsd)
  {}

  function ValueOf(price: real, qty: real): real { price * qty }

  /** The fee on a notional; a basis point is a ten-thousandth. */
  function FeeOn(cfg: Config, notional: real): real { cfg.feeBps as real / 10_000.0 * notional }

  /** The fill is for the order, at `price` and `qty` settled to 12 places, with the notional and then the
      fee settled in turn. */
  predicate FilledAt(cfg: Config, o: Order, side: Side, qty: real, price: real, f: Fill) {
    && f.orderId == (o.mint, o.id) && f.mint == o.mint && f.side == side && f.ts == o.now
    && f.priceUsd == Round12(price) && f.qty == Round12(qty)
    && f.notionalUsd == Round12(ValueOf(f.priceUsd, f.qty))
    && f.feeUsd == Round12(FeeOn(cfg, f.notionalUsd))
  }

  lemma NotionalIs(price: real, qty: real)
    ensures Notional(price, qty) == Round12(ValueOf(price, qty))
  {
    hide Round12;
  }

  lemma FeeIs(cfg: Config, notional: real)
    ensures FeeOf(cfg, notional) == Round12(FeeOn(cfg, notional))
  {
    assert RawFee(cfg, notional) == FeeOn(cfg, notional);
    hide Round12, RawFee, FeeOn;
  }

  lemma SettledFields(cfg: Config, side: Side, mint: Mint, qty: real, price: real, now: Time, id: (Mint, nat))
    ensures var f := SettledFill(cfg, side, mint, qty, price, now, id);
      f.orderId == id && f.mint == mint && f.side == side && f.ts == now
        && f.priceUsd == Round12(price) && f.qty == Round12(qty)
  {
    hide Round12, Notional, FeeOf;
  }

  lemma SettledIsFilledAt(cfg: Config, o: Order, side: Side, qty: real, price: real)
    ensures FilledAt(cfg, o, side, qty, price, SettledFill(cfg, side, o.mint, qty, price, o.now, (o.mint, o.id)))
  {
    hide Round12, SettledFill, Notional, FeeOf, ValueOf, FeeOn;
    var f := SettledFill(cfg, side, o.mint, qty, price, o.now, (o.mint, o.id));
    SettledFields(cfg, side, o.mint, qty, price, o.now, (o.mint, o.id));
    NotionalKept(cfg, side, o.mint, qty, price, o.now, (o.mint, o.id));
    FeeKept(cfg, side, o.mint, qty, price, o.now, (o.mint, o.id));
    NotionalIs(f.priceUsd, f.qty);
    FeeIs(cfg, f.notionalUsd);
  }

  /** The reference price moved against the order by the slippage of its value. */
  function MovedPrice(cfg: Config, side: Side, refPrice: real, usd: real, poolUsd: real): real {
    var pct := SlippagePct(cfg, usd, poolUsd);
    if side == BuySide then refPrice * (1.0 + pct / 100.0) else refPrice * (1.0 - pct / 100.0)
  }

  lemma SlippedIs(cfg: Config, side: Side, refPrice: real, usd: real, poolUsd: real)
    ensures Slipped(side, refPrice, SlippageFor(cfg, usd, poolUsd)) == MovedPrice(cfg, side, refPrice, usd, poolUsd)
  {
    SlippageIs(cfg, usd, poolUsd);
    hide SlippageFor, SlippagePct;
  }

  /** The reference value of a sell. */
  function SellValue(o: Order): real
    requires o.SellOrder?
  {
    o.qty * o.priceUsd
  }

  /** A paper buy fills above the reference price by the slippage of its budget, and gets the budget's
      worth at that price. */
  lemma PaperBuyClosedForm(cfg: Config, fails: (Mint, nat) -> bool, o: Order)
    requires cfg.Valid() && o.BuyOrder? && Paper(cfg, fails)(o).Filled?
    ensures var price := MovedPrice(cfg, BuySide, o.priceUsd, o.budgetUsd, o.liquidityUsd);
      price > 0.0 && FilledAt(cfg, o, BuySide, o.budgetUsd / price, price, Paper(cfg, fails)(o).fill)
  {
    hide Paper, SettledFill, FilledAt, SlippageFor, MovedPrice, Slipped;
    BuyIsAccepted(cfg, fails, o);
    SlippedIs(cfg, BuySide, o.priceUsd, o.budgetUsd, o.liquidityUsd);
    var price := BuyPrice(cfg, o.budgetUsd, o.priceUsd, o.liquidityUsd);
    SettledIsFilledAt(cfg, o, BuySide, o.budgetUsd / price, price);
  }

  lemma SellIsFill(cfg: Config, o: Order, notional: real)
    requires o.SellOrder? && notional == o.qty * o.priceUsd
    ensures PaperSell(cfg, o) ==
      PaperFill(cfg, SellSide, o.mint, o.qty, o.priceUsd, SlippageFor(cfg, notional, o.liquidityUsd),
                o.now, (o.mint, o.id))
  {
    hide PaperFill, SlippageFor;
  }

  /** A fill with the given slippage is accepted exactly if quantity, reference price and slipped price are
      positive. */
  lemma PaperFillIs(cfg: Config, o: Order, side: Side, qty: real, eff: real)
    ensures var reply := PaperFill(cfg, side, o.mint, qty, o.priceUsd, eff, o.now, (o.mint, o.id));
      var price := Slipped(side, o.priceUsd, eff);
      && (reply.Filled? <==> qty > 0.0 && o.priceUsd > 0.0 && price > 0.0)
      && (reply.Filled? ==> FilledAt(cfg, o, side, qty, price, reply.fill))
  {
    hide SettledFill, FilledAt, Slipped;
    SettledIsFilledAt(cfg, o, side, qty, Slipped(side, o.priceUsd, eff));
  }

  /** A paper sell is accepted exactly if it is not failed on purpose and quantity, reference price and
      the price less the slippage of its value are positive; it fills all of it at that price. */
  lemma PaperSellClosedForm(cfg: Config, fails: (Mint, nat) -> bool, o: Order)
    requires cfg.Valid() && o.SellOrder?
    ensures var price := MovedPrice(cfg, SellSide, o.priceUsd, SellValue(o), o.liquidityUsd);
      && (Paper(cfg, fails)(o).Filled? <==> !fails(o.mint, o.id) && o.qty > 0.0 && o.priceUsd > 0.0 && price > 0.0)
      && (Paper(cfg, fails)(o).Filled? ==> FilledAt(cfg, o, SellSide, o.qty, price, Paper(cfg, fails)(o).fill))
  {
    hide PaperFill, PaperSell, FilledAt, SlippageFor, MovedPrice, Slipped;
    var usd := SellValue(o);
    SellIsFill(cfg, o, usd);
    SlippedIs(cfg, SellSide, o.priceUsd, usd, o.liquidityUsd);
    PaperFillIs(cfg, o, SellSide, o.qty, SlippageFor(cfg, usd, o.liquidityUsd));
  }

  // ---- Solvency of paper trading ----

  /** Positive prices lie within `[lo, hi]`; a price of zero or below is rejected at no cost. */
  function Within(lo: real, hi: real): real -> bool {
    price => price > 0.0 ==> lo <= price <= hi
  }

  /** The settlement error of the notional of any such buy. */
  function SettlementSlack(cfg: Config, lo: real, hi: real): real
    requires lo > 0.0
  {
    HalfUlps(cfg.maxSinglePosUsd / lo + HALF_ULP + 2.0 * hi + 1.0)
  }

  /** The most one paper buy of a launch priced within `[lo, hi]` can cost beyond its slice: the
      fee on it, and the settlement errors. */
  function PaperSlack(cfg: Config, lo: real, hi: real): real
    requires lo > 0.0
  {
    var err := SettlementSlack(cfg, lo, hi);
    err + (cfg.maxSinglePosUsd + err) * (cfg.feeBps as real / 10_000.0) + HALF_ULP
  }

  lemma BuyCostBound(cfg: Config, fails: (Mint, nat) -> bool, lo: real, hi: real, o: Order)
    requires cfg.Valid() && 0.0 < lo <= hi
    ensures Solvency.CostBoundedAt(cfg, Paper(cfg, fails), Within(lo, hi), PaperSlack(cfg, lo, hi), o)
  {
    hide Paper, BuyPrice, SettledFill, OnGrid, PaperSlack, SettlementSlack;
    var exec := Paper(cfg, fails);
    if o.BuyOrder? && o.budgetUsd <= cfg.maxSinglePosUsd && Within(lo, hi)(o.priceUsd) && exec(o).Filled? {
      var p0 := BuyPrice(cfg, o.budgetUsd, o.priceUsd, o.liquidityUsd);
      BuyIsAccepted(cfg, fails, o);
      BuyErrorBound(cfg, fails, o);
      BuyPriceCapped(cfg, o.budgetUsd, o.priceUsd, o.liquidityUsd);
      SettlementBounds(cfg, BuySide, o.mint, o.budgetUsd / p0, p0, o.now, (o.mint, o.id));
      SlackCovers(cfg, lo, hi, o.budgetUsd, p0, exec(o).fill);
    }
  }

  lemma SlackCovers(cfg: Config, lo: real, hi: real, budget: real, p0: real, f: Fill)
    requires cfg.Valid() && 0.0 < lo <= p0 <= 2.0 * hi && 0.0 < budget <= cfg.maxSinglePosUsd
    requires f.qty <= budget / p0 + HALF_ULP
    requires 0.0 <= f.notionalUsd <= budget + HalfUlps(f.qty + p0 + 1.0)
    requires f.feeUsd <= f.notionalUsd * (cfg.feeBps as real / 10_000.0) + HALF_ULP
    ensures f.notionalUsd + f.feeUsd <= budget + PaperSlack(cfg, lo, hi)
  {
    var cap, rate := cfg.maxSinglePosUsd, cfg.feeBps as real / 10_000.0;
    var err := SettlementSlack(cfg, lo, hi);
    SmallQuotient(budget, p0, lo);
    DivMonotone(budget, cap, lo);
    assert f.notionalUsd <= budget + err;
    MulMonotone(rate, f.notionalUsd, cap + err);
  }

  lemma BuyPriceCapped(cfg: Config, budget: real, price: real, liq: real)
    requires cfg.Valid() && price > 0.0
    ensures BuyPrice(cfg, budget, price, liq) <= 2.0 * price
  {
    SlippageBounds(cfg, budget, budget, liq);
    MulMonotone(price, 1.0 + SlippageFor(cfg, budget, liq) / 100.0, 2.0);
  }

  /** Paper trading stays solvent: with fees of at most everything and positive launch prices
      within `[lo, hi]`, free capital never falls below minus one explicit slack per funnel slice. */
  lemma PaperStaysSolvent(cfg: Config, fails: (Mint, nat) -> bool, boot: Time,
      steps: seq<Step>, lo: real, hi: real)
    requires cfg.Valid() && cfg.feeBps <= 10_000 && 0.0 < lo <= hi
    requires forall i :: 0 <= i < |steps| ==> Solvency.PricedAs(steps[i].ev, Within(lo, hi))
    ensures Run(cfg, Paper(cfg, fails), Initial(cfg, boot), steps).Free() >=
      -(PaperSlack(cfg, lo, hi) * cfg.funnelSlices as real)
  {
    hide Paper, Run, Solvency.PricedAs;
    var exec := Paper(cfg, fails);
    SlackNonNegative(cfg, lo, hi);
    hide PaperSlack;
    forall o: Order ensures Solvency.CostBoundedAt(cfg, exec, Within(lo, hi), PaperSlack(cfg, lo, hi), o) {
      BuyCostBound(cfg, fails, lo, hi, o);
    }
    forall o: Order ensures Solvency.PaysOutAt(exec, o) {
      if o.SellOrder? && exec(o).Filled? {
        SellBounds(cfg, fails, o);
      }
    }
    Solvency.FreeCapitalIsBounded(cfg, exec, boot, steps, Within(lo, hi), PaperSlack(cfg, lo, hi));
  }

  lemma SlackNonNegative(cfg: Config, lo: real, hi: real)
    requires cfg.Valid() && 0.0 < lo <= hi
    ensures PaperSlack(cfg, lo, hi) >= 0.0
  {
    PositiveQuotient(cfg.maxSinglePosUsd, lo);
    var err := SettlementSlack(cfg, lo, hi);
    MulMonotone(cfg.maxSinglePosUsd + err, 0.0, cfg.feeBps as real / 10_000.0);
  }

  /** The most one paper buy can cost beyond its slice at any price whatever: each of its four
      settlements at most doubles. */
  function FlatSlack(cfg: Config): real {
    7.0 * cfg.maxSinglePosUsd + 16.0 * cfg.maxSinglePosUsd * (cfg.feeBps as real / 10_000.0)
  }

  lemma ProductDoubles(p0: real, q0: real, p: real, q: real)
    requires 0.0 <= p <= 2.0 * p0 && 0.0 <= q <= 2.0 * q0
    ensures 0.0 <= p * q <= 4.0 * (p0 * q0)
  {
    MulMonotone(q, p, 2.0 * p0);
    MulMonotone(2.0 * p0, q, 2.0 * q0);
    assert 2.0 * p0 * (2.0 * q0) == 4.0 * (p0 * q0);
  }

  /** A paper buy settles at no more than eight times its slice, and its fee at no more than twice
      its rate. */
  lemma SettledBuyDoubles(cfg: Config, o: Order, p0: real)
    requires o.BuyOrder? && p0 > 0.0 && o.budgetUsd / p0 > 0.0
    ensures var f := SettledFill(cfg, BuySide, o.mint, o.budgetUsd / p0, p0, o.now, (o.mint, o.id));
      && 0.0 <= f.notionalUsd <= 8.0 * o.budgetUsd
      && f.feeUsd <= 2.0 * (f.notionalUsd * (cfg.feeBps as real / 10_000.0))
  {
    hide SettledFill, Round12, Notional, FeeOf;
    var q0 := o.budgetUsd / p0;
    assert p0 * q0 == o.budgetUsd;
    var f := SettledFill(cfg, BuySide, o.mint, q0, p0, o.now, (o.mint, o.id));
    SettlementBounds(cfg, BuySide, o.mint, q0, p0, o.now, (o.mint, o.id));
    NotionalKept(cfg, BuySide, o.mint, q0, p0, o.now, (o.mint, o.id));
    FeeKept(cfg, BuySide, o.mint, q0, p0, o.now, (o.mint, o.id));
    RoundAtMostDoubles(p0);
    RoundAtMostDoubles(q0);
    ProductDoubles(p0, q0, f.priceUsd, f.qty);
    NotionalDoubles(f.priceUsd, f.qty);
    FeeDoubles(cfg, f.notionalUsd);
  }

  lemma NotionalDoubles(price: real, qty: real)
    requires price * qty >= 0.0
    ensures Notional(price, qty) <= 2.0 * (price * qty)
  {
    hide Round12;
    RoundAtMostDoubles(price * qty);
  }

  lemma FeeDoubles(cfg: Config, notional: real)
    requires notional >= 0.0
    ensures FeeOf(cfg, notional) <= 2.0 * (notional * (cfg.feeBps as real / 10_000.0))
  {
    hide Round12, RawFee;
    RawFeeBounds(cfg, notional);
    RoundAtMostDoubles(RawFee(cfg, notional));
  }

  lemma FlatSlackCovers(cfg: Config, budget: real, f: Fill)
    requires 0.0 < budget <= cfg.maxSinglePosUsd && 0.0 <= f.notionalUsd <= 8.0 * budget
    requires f.feeUsd <= 2.0 * (f.notionalUsd * (cfg.feeBps as real / 10_000.0))
    ensures f.notionalUsd + f.feeUsd <= budget + FlatSlack(cfg)
  {
    var rate := cfg.feeBps as real / 10_000.0;
    MulMonotone(rate, f.notionalUsd, 8.0 * cfg.maxSinglePosUsd);
  }

  lemma BuyCostAtAnyPrice(cfg: Config, fails: (Mint, nat) -> bool, o: Order)
    requires cfg.Valid()
    ensures Solvency.CostBoundedAt(cfg, Paper(cfg, fails), AnyPrice(), FlatSlack(cfg), o)
  {
    hide Paper, BuyPrice, SettledFill, FlatSlack;
    if o.BuyOrder? && o.budgetUsd <= cfg.maxSinglePosUsd && Paper(cfg, fails)(o).Filled? {
      BuyIsAccepted(cfg, fails, o);
      SettledBuyDoubles(cfg, o, BuyPrice(cfg, o.budgetUsd, o.priceUsd, o.liquidityUsd));
      FlatSlackCovers(cfg, o.budgetUsd, Paper(cfg, fails)(o).fill);
    }
  }

  function AnyPrice(): real -> bool { _ => true }

  lemma FlatSlackNonNegative(cfg: Config)
    requires cfg.Valid()
    ensures FlatSlack(cfg) >= 0.0
  {
    MulMonotone(16.0 * cfg.maxSinglePosUsd, 0.0, cfg.feeBps as real / 10_000.0);
  }

  /** What the solvency and worst-day theorems ask of an executor, met by the paper executor with
      fees of at most everything, whatever the prices. */
  lemma PaperIsBounded(cfg: Config, fails: (Mint, nat) -> bool)
    requires cfg.Valid() && cfg.feeBps <= 10_000
    ensures Solvency.CostsBounded(cfg, Paper(cfg, fails), AnyPrice(), FlatSlack(cfg))
    ensures Solvency.PaysOut(Paper(cfg, fails))
  {
    hide Paper, FlatSlack;
    FlatSlackNonNegative(cfg);
    forall o: Order ensures Solvency.CostBoundedAt(cfg, Paper(cfg, fails), AnyPrice(), FlatSlack(cfg), o) {
      BuyCostAtAnyPrice(cfg, fails, o);
    }
    forall o: Order ensures Solvency.PaysOutAt(Paper(cfg, fails), o) {
      if o.SellOrder? && Paper(cfg, fails)(o).Filled? {
        SellBounds(cfg, fails, o);
      }
    }
  }

  /** Paper trading stays solvent at any prices: with fees of at most everything, free capital never
      falls below minus one slack per funnel slice, a slack the configuration alone determines. */
  lemma PaperStaysSolventAtAnyPrice(cfg: Config, fails: (Mint, nat) -> bool, boot: Time, steps: seq<Step>)
    requires cfg.Valid() && cfg.feeBps <= 10_000
    ensures Run(cfg, Paper(cfg, fails), Initial(cfg, boot), steps).Free() >=
      -(FlatSlack(cfg) * cfg.funnelSlices as real)
  {
    hide Paper, Run, FlatSlack;
    PaperIsBounded(cfg, fails);
    Solvency.FreeCapitalIsBounded(cfg, Paper(cfg, fails), boot, steps, AnyPrice(), FlatSlack(cfg));
  }

  // ---- The funnel's benefit ----

  /** Tokens (before settlement) that one paper order of `budget` buys. */
  function TokensFor(cfg: Config, budget: real, price: real, liq: real): real
    requires cfg.Valid() && price > 0.0
  {
    BuyPricePositive(cfg, budget, price, liq);
    budget / BuyPrice(cfg, budget, price, liq)
  }

  function TokensForAll(cfg: Config, slices: seq<real>, price: real, liq: real): real
    requires cfg.Valid() && price > 0.0
  {
    if slices == [] then 0.0
    else TokensFor(cfg, slices[0], price, liq) + TokensForAll(cfg, slices[1..], price, liq)
  }

  lemma {:induction false} SlicesBuyMore(cfg: Config, slices: seq<real>, total: real, price: real, liq: real)
    requires cfg.Valid() && price > 0.0
    requires forall i :: 0 <= i < |slices| ==> 0.0 < slices[i] <= total
    ensures BuyPrice(cfg, total, price, liq) > 0.0
    ensures TokensForAll(cfg, slices, price, liq) >= Strategy.Sum(slices) / BuyPrice(cfg, total, price, liq)
  {
    hide BuyPrice;
    BuyPricePositive(cfg, total, price, liq);
    if slices != [] {
      var dear := BuyPrice(cfg, total, price, liq);
      SlicesBuyMore(cfg, slices[1..], total, price, liq);
      BuyPricePositive(cfg, slices[0], price, liq);
      BuyPriceMonotone(cfg, slices[0], total, price, liq);
      SmallQuotient(slices[0], dear, BuyPrice(cfg, slices[0], price, liq));
      SplitQuotient(slices[0], Strategy.Sum(slices[1..]), dear);
    }
  }

  lemma SplitQuotient(a: real, b: real, d: real)
    requires d > 0.0
    ensures (a + b) / d == a / d + b / d
  {}

  lemma BuyPriceMonotone(cfg: Config, a: real, b: real, price: real, liq: real)
    requires cfg.Valid() && price > 0.0 && a <= b
    ensures BuyPrice(cfg, a, price, liq) <= BuyPrice(cfg, b, price, liq)
  {
    SlippageBounds(cfg, a, b, liq);
    MulMonotone(price, 1.0 + SlippageFor(cfg, a, liq) / 100.0, 1.0 + SlippageFor(cfg, b, liq) / 100.0);
  }

  /** The funnel never buys fewer tokens (before settlement) than one order of the whole budget at
      the same price and liquidity would. */
  lemma FunnelBuysAtLeastAsMuch(cfg: Config, total: real, price: real, liq: real)
    requires cfg.Valid() && price > 0.0 && total > 0.0
    ensures TokensForAll(cfg, Strategy.SplitIntoSlices(total, cfg.funnelSlices), price, liq) >=
            TokensFor(cfg, total, price, liq)
  {
    hide BuyPrice, Strategy.SplitIntoSlices;
    Strategy.SlicesAreExact(total, cfg.funnelSlices);
    SlicesBuyMore(cfg, Strategy.SplitIntoSlices(total, cfg.funnelSlices), total, price, liq);
  }
}
