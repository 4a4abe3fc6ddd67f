/** Domain records: launches, ticks, positions, orders, fills and the trading configuration. */
module Domain {

  datatype Option<+T> = None | Some(value: T)

  datatype Result<+T, +E> = Ok(value: T) | Err(error: E)

  /** Nanoseconds since the Unix epoch, UTC. */
  type Time = int

  const SECOND: int := 1_000_000_000
  const DAY: int := 86_400 * SECOND

  /** Whole seconds of a signed duration, truncated toward zero. */
  function NumSeconds(d: int): int {
    if d >= 0 then d / SECOND else -((-d) / SECOND)
  }

  /** The UTC calendar day of an instant. */
  function DayOf(t: Time): int { t / DAY }

  lemma DayMonotone(t: Time, u: Time)
    requires t <= u
    ensures DayOf(t) <= DayOf(u)
  {}

  /** A day is 86,400 seconds of UTC. */
  lemma DayIsUtcDay(t: Time)
    ensures DayOf(t) * 86_400_000_000_000 <= t < (DayOf(t) + 1) * 86_400_000_000_000
  {}

  type Mint = string

  datatype Launchpad = PumpFun | Stonkfun | MeteoraVirtualCurve

  datatype Launch = Launch(
    mint: Mint,
    launchpad: Launchpad,
    createdAt: Time,
    creatorHoldPct: real,
    mintRenounced: bool,
    isHoneypot: bool,
    liquidityUsd: real,
    onCurve: bool,
    priceUsd: real)

  datatype PriceUpdate = PriceUpdate(mint: Mint, ts: Time, priceUsd: real, liquidityUsd: real)

  datatype Event = LaunchEvent(launch: Launch) | PriceEvent(price: PriceUpdate) {
    function Ts(): Time {
      match this
      case LaunchEvent(l) => l.createdAt
      case PriceEvent(p) => p.ts
    }
  }

  datatype HoldMode = Flip | Conviction

  datatype Position = Position(
    mint: Mint,
    launchpad: Launchpad,
    openedAt: Time,
    entryPrice: real,
    qty: real,
    costUsd: real,
    highWater: real,
    lastPrice: real,
    lastLiquidityUsd: real,
    mode: HoldMode,
    exitAttempts: nat,
    stuck: bool)
  {
    function UnrealizedPnlPct(price: real): real { GainPct(entryPrice, price) }
  }

  /** The percentage by which a price exceeds an entry price. */
  function GainPct(entryPrice: real, price: real): real {
    if entryPrice == 0.0 then 0.0 else (price - entryPrice) / entryPrice * 100.0
  }

  datatype Side = BuySide | SellSide

  /** Urgency tier of an order: entry, flip exit or conviction exit. */
  datatype TipTier = Entry | FlipExit | ConvictionExit

  /** An order as handed to the executor. Its id is the pair of mint and sequence number. */
  datatype Order =
    | BuyOrder(id: nat, mint: Mint, budgetUsd: real, priceUsd: real, liquidityUsd: real,
               now: Time, deadline: Time)
    | SellOrder(id: nat, mint: Mint, qty: real, priceUsd: real, liquidityUsd: real,
                now: Time, tier: TipTier)

  datatype Fill = Fill(
    orderId: (Mint, nat),
    mint: Mint,
    side: Side,
    qty: real,
    priceUsd: real,
    notionalUsd: real,
    feeUsd: real,
    ts: Time)

  datatype ExecError = Rejected | Transport | NotArmed

  datatype Reply = Filled(fill: Fill) | Failed(error: ExecError)

  /** An executor, seen from one run. Order ids never repeat within a run (nor across a
      restore, which carries the sequence counter over), so a function of the order can answer
      differently every time: quantifying over `Executor` covers stateful and adversarial ones. */
  type Executor = Order -> Reply

  datatype ClosedTrade = ClosedTrade(
    mint: Mint,
    openedAt: Time,
    closedAt: Time,
    entryPrice: real,
    exitPrice: real,
    qty: real,
    costUsd: real,
    proceedsUsd: real,
    pnlUsd: real,
    pnlPct: real,
    exitReason: string,
    mode: HoldMode)

  datatype Config = Config(
    equityUsd: real,
    entryMaxAgeSecs: nat,
    minLiquidityUsd: real,
    maxDevHoldPct: real,
    funnelSlices: nat,
    funnelWindowSecs: nat,
    riskPerTradePct: real,
    maxSinglePosUsd: real,
    maxOpenPositions: nat,
    takeProfitPct: real,
    stopLossPct: real,
    maxHoldSecs: nat,
    maxExitAttempts: nat,
    convictionMinPct: real,
    trailPct: real,
    convictionMaxHoldSecs: nat,
    dailyLossLimitPct: real,
    maxTradesPerMin: nat,
    killSwitch: bool,
    paperSlippagePct: real,
    paperImpactCoeff: real,
    paperMaxSlippagePct: real,
    feeBps: nat,
    maxTradeSubs: nat)
  {
    /** The bounds a configuration is validated against at boot, for the fields modelled here. */
    predicate Valid() {
      && equityUsd > 0.0
      && minLiquidityUsd > 0.0
      && maxSinglePosUsd > 0.0
      && takeProfitPct > 0.0
      && stopLossPct > 0.0
      && trailPct > 0.0
      && riskPerTradePct > 0.0
      && paperSlippagePct >= 0.0
      && paperImpactCoeff >= 0.0
      && 0.0 < paperMaxSlippagePct <= 100.0
      && funnelSlices >= 1
      && maxOpenPositions >= 1
      && maxTradesPerMin >= 1
      && maxExitAttempts >= 1
      && maxTradeSubs >= 1
    }
  }
}
