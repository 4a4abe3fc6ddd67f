/** Decision rules: entry gate, risk-first sizing, funnel slicing and exit rules. */
module Strategy {
  import opened Decimals
  import opened Domain

  datatype RejectReason =
    | TooOld(ageSecs: int, maxSecs: nat)
    | TooIlliquid(liq: real, min: real)
    | DevHoldTooHigh(hold: real, max: real)
    | NotRenouncedOnMigrated(liquidity: real, minimum: real)
    | Honeypot

  function EntryGate(cfg: Config, launch: Launch, now: Time): Option<RejectReason> {
    var age := NumSeconds(now - launch.createdAt);
    if age > cfg.entryMaxAgeSecs then
      Some(TooOld(age, cfg.entryMaxAgeSecs))
    else if launch.liquidityUsd < cfg.minLiquidityUsd && !launch.onCurve then
      Some(TooIlliquid(launch.liquidityUsd, cfg.minLiquidityUsd))
    else if launch.creatorHoldPct > cfg.maxDevHoldPct then
      Some(DevHoldTooHigh(launch.creatorHoldPct, cfg.maxDevHoldPct))
    else if launch.isHoneypot then
      Some(Honeypot)
    else if !launch.onCurve && !launch.mintRenounced then
      Some(NotRenouncedOnMigrated(launch.liquidityUsd, cfg.minLiquidityUsd))
    else
      None
  }

  /** Per-token budget, capped by the capital actually free. */
  function PositionBudget(cfg: Config, equity: real, deployedUsd: real): real {
    var riskCap := equity * cfg.riskPerTradePct / 100.0;
    var budget := Min(riskCap, cfg.maxSinglePosUsd);
    var free := equity - deployedUsd;
    if free < 0.0 || budget > free then Max(free, 0.0) else budget
  }

  /** Funnel slices: whole-dollar slices, the remainder riding on the last one. */
  function SplitIntoSlices(total: real, n: nat): seq<real>
    requires n >= 1
  {
    if n == 1 || total <= 0.0 then [total]
    else if SliceBase(total, n) <= 0.0 then [total]
    else EqualSlices(total, n, SliceBase(total, n))
  }

  function SliceBase(total: real, n: nat): real
    requires n >= 1
  {
    (total / n as real).Floor as real
  }

  function EqualSlices(total: real, n: nat, base: real): seq<real>
    requires n >= 1
  {
    seq(n - 1, _ => base) + [total - base * (n - 1) as real]
  }

  function Sum(xs: seq<real>): real {
    if xs == [] then 0.0 else xs[0] + Sum(xs[1..])
  }

  lemma {:induction false} SumOfEqual(xs: seq<real>, x: real)
    requires forall i :: 0 <= i < |xs| ==> xs[i] == x
    ensures Sum(xs) == x * |xs| as real
  {
    if xs != [] {
      SumOfEqual(xs[1..], x);
    }
  }

  lemma {:induction false} SumSnoc(xs: seq<real>, x: real)
    ensures Sum(xs + [x]) == Sum(xs) + x
  {
    if xs != [] {
      assert (xs + [x])[1..] == xs[1..] + [x];
      SumSnoc(xs[1..], x);
    }
  }

  /** The funnel spends its budget exactly: the slices sum to it and are positive whenever it is. A
      budget of at least a dollar a slice makes `n` of them, all but the last of the same whole number
      of dollars, the largest that fits `n` times; a smaller budget makes one. */
  lemma SlicesAreExact(total: real, n: nat)
    requires n >= 1
    ensures ExactSlices(SplitIntoSlices(total, n), total, n)
  {
    FloorDivides(total, n as real);
    if n > 1 && total > 0.0 {
      WholeDollars(total, n);
      if SliceBase(total, n) > 0.0 {
        EqualSlicesAreExact(total, n, SliceBase(total, n));
      }
    }
    assert Sum([total]) == total + Sum([]);
  }

  ghost predicate ExactSlices(slices: seq<real>, total: real, n: nat) {
    && |slices| == (if n > 1 && total >= n as real then n else 1)
    && Sum(slices) == total
    && (total > 0.0 ==> forall i :: 0 <= i < |slices| ==> 0.0 < slices[i] <= total)
    && (forall i :: 0 <= i < |slices| - 1 ==>
         && slices[i] == slices[0] == slices[0].Floor as real
         && FitsTimes(slices[i], n, total)
         && slices[i] <= slices[|slices| - 1] < slices[i] + n as real)
  }

  /** `n` times `x` fits into `total`, and `n` times a dollar more does not. */
  predicate FitsTimes(x: real, n: nat, total: real) { x * n as real <= total < (x + 1.0) * n as real }

  lemma WholeDollars(total: real, n: nat)
    requires n > 1 && total > 0.0
    ensures SliceBase(total, n) > 0.0 <==> total >= n as real
    ensures SliceBase(total, n) == SliceBase(total, n).Floor as real
  {
    assert total / n as real >= 1.0 <==> total >= n as real;
  }

  lemma EqualSlicesAreExact(total: real, n: nat, base: real)
    requires n > 1 && base > 0.0 && base == base.Floor as real && total >= n as real
    requires base * n as real <= total < base * n as real + n as real
    ensures ExactSlices(EqualSlices(total, n, base), total, n)
  {
    var front := seq(n - 1, _ => base);
    var last := total - base * (n - 1) as real;
    assert EqualSlices(total, n, base) == front + [last];
    SumOfEqual(front, base);
    LastSlice(total, base, (n - 1) as real, n as real);
    BaseFits(total, n, base);
    hide FitsTimes, ExactSlices;
    ExactWithLast(front, last, base, total, n);
  }

  lemma BaseFits(total: real, n: nat, base: real)
    requires base * n as real <= total < base * n as real + n as real
    ensures FitsTimes(base, n, total)
  {
    Distribute(base, 1.0, n as real);
  }

  lemma ExactWithLast(front: seq<real>, last: real, base: real, total: real, n: nat)
    requires n > 1 && total >= n as real && |front| == n - 1 && Sum(front) == total - last
    requires forall i :: 0 <= i < |front| ==> front[i] == base
    requires 0.0 < base <= last < base + n as real && base <= total && last <= total && base == base.Floor as real
    requires FitsTimes(base, n, total)
    ensures ExactSlices(front + [last], total, n)
  {
    hide FitsTimes;
    SumSnoc(front, last);
  }

  lemma LastSlice(total: real, base: real, m: real, k: real)
    requires m >= 1.0 && k == m + 1.0 && base > 0.0
    requires base * k <= total < base * k + k
    ensures base <= total - base * m < base + m + 1.0
    ensures 0.0 < base <= base * m < total
  {
    Distribute(m, 1.0, base);
    MulMonotone(base, 1.0, m);
  }

  lemma FloorDivides(total: real, k: real)
    requires k > 0.0
    ensures var base := (total / k).Floor as real; base * k <= total < base * k + k
  {
    var q := total / k;
    ScaleBetween(total, q.Floor as real, q, k);
  }

  lemma ScaleBetween(total: real, base: real, q: real, k: real)
    requires base <= q < base + 1.0 && k > 0.0 && q * k == total
    ensures base * k <= total < base * k + k
  {
    var below, above := q - base, base + 1.0 - q;
    Distribute(base, below, k);
    assert base + below == q;
    assert below * k >= 0.0;
    MulPositive(above, k);
    Distribute(below, above, k);
    assert below + above == 1.0;
  }

  /** The budget is the tightest of three limits: the risk per trade, the position cap and the free
      capital. With negative free capital it is nothing; with positive equity it is positive exactly
      when there is free capital. */
  lemma BudgetIsCovered(cfg: Config, equity: real, deployedUsd: real)
    requires cfg.Valid()
    ensures var budget, free := PositionBudget(cfg, equity, deployedUsd), equity - deployedUsd;
      var risk := equity * cfg.riskPerTradePct / 100.0;
      && (free >= 0.0 ==>
            && budget <= risk && budget <= cfg.maxSinglePosUsd && budget <= free
            && (budget == risk || budget == cfg.maxSinglePosUsd || budget == free))
      && (free < 0.0 ==> budget == 0.0)
      && (equity > 0.0 ==> (budget > 0.0 <==> equity > deployedUsd))
  {
    var riskCap := equity * cfg.riskPerTradePct / 100.0;
    if equity > 0.0 {
      assert equity * cfg.riskPerTradePct > 0.0;
    }
  }

  /** Price-driven exit rules: the updated position and the exit reason, if any. */
  function OnPrice(cfg: Config, pos: Position, price: real, now: Time): (Position, Option<string>) {
    var p := pos.(highWater := if price > pos.highWater then price else pos.highWater);
    var pnlPct := p.UnrealizedPnlPct(price);
    match p.mode
    case Flip =>
      if pnlPct >= cfg.convictionMinPct then (p.(mode := Conviction), None)
      else if pnlPct >= cfg.takeProfitPct then (p, Some("take_profit"))
      else if price <= StopPrice(cfg, p) then (p, Some("stop_loss"))
      else if NumSeconds(now - p.openedAt) >= cfg.maxHoldSecs then (p, Some("max_hold"))
      else (p, None)
    case Conviction =>
      if price <= TrailStop(cfg, p) then (p, Some("trail_stop"))
      else if NumSeconds(now - p.openedAt) >= cfg.convictionMaxHoldSecs then (p, Some("conviction_max_hold"))
      else (p, None)
  }

  function StopPrice(cfg: Config, pos: Position): real {
    pos.highWater * (1.0 - cfg.stopLossPct / 100.0)
  }

  function TrailStop(cfg: Config, pos: Position): real {
    pos.highWater * (1.0 - cfg.trailPct / 100.0)
  }

  /** Time-only exits, evaluated independently of price ticks. */
  function OnTime(cfg: Config, pos: Position, now: Time): Option<string> {
    var elapsed := NumSeconds(now - pos.openedAt);
    match pos.mode
    case Flip =>
      if elapsed >= cfg.maxHoldSecs then Some("max_hold") else None
    case Conviction =>
      if elapsed >= cfg.convictionMaxHoldSecs then Some("conviction_max_hold") else None
  }
}
