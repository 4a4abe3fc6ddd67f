/** The trading engine as a state machine over events.

    `State` is the book, the ledger and the controls, plus `tape`: a record of everything that
    happened to the tokens traded, which no decision reads. */
module Machine {
  import opened Decimals
  import opened Domain
  import opened Risk
  import Strategy

  /** Why a sell was sent: a price rule on a tick, or the time-stop sweep. Buys come from the funnel. */
  datatype Cause = Funnel | OnTick | Sweep

  datatype Entry =
    | Traded(order: Order, reply: Reply, cause: Cause)
    | Ticked(mint: Mint, priceUsd: real, liquidityUsd: real, ts: Time)

  predicate IsBuy(e: Entry) { e.Traded? && e.order.BuyOrder? }

  datatype State = State(
    equity: real,
    deployed: real,
    positions: map<Mint, Position>,
    closed: seq<ClosedTrade>,
    orderSeq: nat,
    controls: Controls,
    tape: seq<Entry>)
  {
    /** Capital not locked in open positions. */
    function Free(): real { equity - deployed }

    function WithRisk(r: RiskState): State { this.(controls := controls.(state := r)) }
  }

  function Initial(cfg: Config, boot: Time): State {
    State(cfg.equityUsd, 0.0, map[], [], 0, Controls(NewState(cfg, boot), 0), [])
  }

  // ---- Entries ----

  function Opened(f: Fill, launchpad: Launchpad, liquidityUsd: real): Position {
    Position(f.mint, launchpad, f.ts, f.priceUsd, 0.0, 0.0, f.priceUsd, f.priceUsd, liquidityUsd,
             Flip, 0, false)
  }

  /** The quantity-weighted average of a position's entry price and a fill's price. */
  function Vwap(p: Position, f: Fill): real
    requires p.qty + f.qty > 0.0
  {
    (p.entryPrice * p.qty + f.priceUsd * f.qty) / (p.qty + f.qty)
  }

  /** One slice fill accumulated into a position at the quantity-weighted average entry. */
  function AddFill(p: Position, f: Fill, liquidityUsd: real): Position {
    var qty := p.qty + f.qty;
    p.(entryPrice := if qty > 0.0 then Vwap(p, f) else p.entryPrice,
       qty := qty,
       costUsd := p.costUsd + (f.notionalUsd + f.feeUsd),
       lastPrice := f.priceUsd,
       lastLiquidityUsd := liquidityUsd,
       highWater := if f.priceUsd > p.highWater then f.priceUsd else p.highWater)
  }

  function ApplyBuyFill(s: State, f: Fill, launchpad: Launchpad, liquidityUsd: real): State {
    var p := if f.mint in s.positions then s.positions[f.mint] else Opened(f, launchpad, liquidityUsd);
    var positions := s.positions[f.mint := AddFill(p, f, liquidityUsd)];
    s.(positions := positions,
       deployed := s.deployed + (f.notionalUsd + f.feeUsd),
       controls := s.controls.(openPositions := |positions|))
  }

  function Deadline(cfg: Config, now: Time): Time { now + cfg.funnelWindowSecs * SECOND }

  function SliceOrder(cfg: Config, s: State, l: Launch, slice: real): Order {
    BuyOrder(s.orderSeq + 1, l.mint, slice, l.priceUsd, l.liquidityUsd, l.createdAt,
             Deadline(cfg, l.createdAt))
  }

  /** One throttle-approved slice: counted, sent, and booked when it fills. */
  function SubmitSlice(cfg: Config, exec: Executor, s: State, l: Launch, slice: real): State {
    var order := SliceOrder(cfg, s, l, slice);
    var reply := exec(order);
    var risk := PushOrder(Settle(s.controls.state, l.createdAt), l.createdAt);
    var sent := s.WithRisk(risk).(orderSeq := order.id, tape := s.tape + [Traded(order, reply, Funnel)]);
    match reply
    case Failed(_) => sent
    case Filled(f) => ApplyBuyFill(sent, f, l.launchpad, l.liquidityUsd)
  }

  /** One slice of the funnel: skipped when late, refused by the throttle, or sent. The flag says
      whether the funnel goes on. */
  function TrySlice(cfg: Config, exec: Executor, s: State, l: Launch, slice: real): (State, bool) {
    var settled := Settle(s.controls.state, l.createdAt);
    if l.createdAt > Deadline(cfg, l.createdAt) then (s, false)
    else if ThrottleBlock(cfg, settled).Some? then (s.WithRisk(settled), false)
    else (SubmitSlice(cfg, exec, s, l, slice), exec(SliceOrder(cfg, s, l, slice)).Filled?)
  }

  /** Slices sent back to back until one does not fill. */
  function SendSlices(cfg: Config, exec: Executor, s: State, l: Launch, slices: seq<real>): State
    decreases |slices|
  {
    if slices == [] then s
    else
      var (s', more) := TrySlice(cfg, exec, s, l, slices[0]);
      if more then SendSlices(cfg, exec, s', l, slices[1..]) else s'
  }

  function OnLaunch(cfg: Config, exec: Executor, s: State, l: Launch): State
    requires cfg.Valid()
  {
    var now := l.createdAt;
    if l.mint in s.positions || Strategy.EntryGate(cfg, l, now).Some? then s
    else
      var settled := s.WithRisk(Settle(s.controls.state, now));
      var budget := Strategy.PositionBudget(cfg, s.equity, s.deployed);
      if EntryBlock(cfg, settled.controls).Some? || budget <= 0.0 then settled
      else SendSlices(cfg, exec, settled, l, Strategy.SplitIntoSlices(budget, cfg.funnelSlices))
  }

  /** A launch is judged at its own creation time, so it is never too old and never past the funnel
      deadline: both branches exist, and neither can be taken. */
  lemma LaunchIsNeverLate(cfg: Config, l: Launch)
    ensures var gate := Strategy.EntryGate(cfg, l, l.createdAt);
      gate.Some? ==> !gate.value.TooOld?
    ensures l.createdAt <= Deadline(cfg, l.createdAt)
  {}

  // ---- Exits ----

  /** What the engine copies out of a position before selling it. */
  datatype Exit = Exit(
    mint: Mint,
    qty: real,
    cost: real,
    mode: HoldMode,
    entryPrice: real,
    refPrice: real,
    liquidityUsd: real,
    reason: string)

  function ExitAt(p: Position, refPrice: real, liquidityUsd: real, reason: string): Exit {
    Exit(p.mint, p.qty, p.costUsd, p.mode, p.entryPrice, refPrice, liquidityUsd, reason)
  }

  function TierOf(mode: HoldMode): TipTier {
    match mode
    case Flip => FlipExit
    case Conviction => ConvictionExit
  }

  function ExitOrder(id: nat, x: Exit, now: Time): Order {
    SellOrder(id, x.mint, x.qty, x.refPrice, x.liquidityUsd, now, TierOf(x.mode))
  }

  function Proceeds(f: Fill): real { Round12(f.notionalUsd - f.feeUsd) }

  function PnlPct(pnl: real, cost: real): real {
    if cost == 0.0 then 0.0 else Round12(pnl / cost * 100.0)
  }

  function TradeOf(x: Exit, f: Fill, now: Time): ClosedTrade {
    var proceeds := Proceeds(f);
    var pnl := proceeds - x.cost;
    ClosedTrade(x.mint, f.ts, now, x.entryPrice, f.priceUsd, f.qty, x.cost, proceeds, pnl,
                PnlPct(pnl, x.cost), x.reason, x.mode)
  }

  /** A failed exit keeps the position and counts; at the limit it is marked stuck. */
  function CountFailure(cfg: Config, p: Position): Position {
    p.(exitAttempts := p.exitAttempts + 1,
       stuck := p.stuck || p.exitAttempts + 1 >= cfg.maxExitAttempts)
  }

  function FailExit(cfg: Config, s: State, m: Mint): State {
    if m in s.positions
    then s.(positions := s.positions[m := CountFailure(cfg, s.positions[m])])
    else s
  }

  /** A filled exit: the trade is realized, booked on its day, and its position removed. */
  function SettleSale(cfg: Config, s: State, x: Exit, f: Fill, now: Time): State {
    var trade := TradeOf(x, f, now);
    var positions := s.positions - {x.mint};
    s.(equity := s.equity + trade.pnlUsd,
       deployed := s.deployed - x.cost,
       controls := Controls(RecordPnl(cfg, s.controls.state, trade.pnlUsd, now), |positions|),
       positions := positions,
       closed := s.closed + [trade])
  }

  /** One exit attempt: noted, sent, and either settled or counted as a failure. */
  function ClosePosition(cfg: Config, exec: Executor, s: State, x: Exit, now: Time, cause: Cause): State {
    var order := ExitOrder(s.orderSeq + 1, x, now);
    var reply := exec(order);
    var sent := s.WithRisk(PushOrder(s.controls.state, now)).(
      orderSeq := order.id, tape := s.tape + [Traded(order, reply, cause)]);
    match reply
    case Failed(_) => FailExit(cfg, sent, x.mint)
    case Filled(f) => SettleSale(cfg, sent, x, f, now)
  }

  /** The position as it enters the price rules. */
  function Marked(p: Position, pu: PriceUpdate): Position {
    p.(lastPrice := pu.priceUsd, lastLiquidityUsd := pu.liquidityUsd)
  }

  function Ruled(cfg: Config, p: Position, pu: PriceUpdate): (Position, Option<string>) {
    Strategy.OnPrice(cfg, Marked(p, pu), pu.priceUsd, pu.ts)
  }

  /** A tick of a held token: its marks and mode are updated, nothing is sold yet. */
  function ObserveTick(cfg: Config, s: State, pu: PriceUpdate): State
    requires pu.mint in s.positions
  {
    s.(positions := s.positions[pu.mint := Ruled(cfg, s.positions[pu.mint], pu).0],
       tape := s.tape + [Ticked(pu.mint, pu.priceUsd, pu.liquidityUsd, pu.ts)])
  }

  function OnPriceUpdate(cfg: Config, exec: Executor, s: State, pu: PriceUpdate): State {
    if pu.mint !in s.positions then s
    else
      var observed := ObserveTick(cfg, s, pu);
      var (p, exit) := Ruled(cfg, s.positions[pu.mint], pu);
      match exit
      case None => observed
      case Some(reason) =>
        ClosePosition(cfg, exec, observed, ExitAt(p, pu.priceUsd, pu.liquidityUsd, reason), pu.ts, OnTick)
  }

  // ---- Time-stop sweep ----

  function Expired(cfg: Config, p: Position, now: Time): Option<string> {
    if p.stuck then None else Strategy.OnTime(cfg, p, now)
  }

  /** The exit of an expired position, at its last marks. */
  function ExitOf(cfg: Config, p: Position, now: Time): Exit
    requires Expired(cfg, p, now).Some?
  {
    ExitAt(p, p.lastPrice, p.lastLiquidityUsd, Expired(cfg, p, now).value)
  }

  /** The exits the sweep collects when it meets the positions in the given order. */
  function Collect(cfg: Config, positions: map<Mint, Position>, order: seq<Mint>, now: Time): seq<Exit> {
    if order == [] then []
    else
      var front := Collect(cfg, positions, order[..|order| - 1], now);
      var m := order[|order| - 1];
      if m in positions && Expired(cfg, positions[m], now).Some? then
        front + [ExitOf(cfg, positions[m], now)]
      else front
  }

  /** `exits` are the exits of the expired positions, of all of them and no others. */
  ghost predicate ListsExpired(cfg: Config, book: map<Mint, Position>, exits: seq<Exit>, now: Time) {
    && (forall m :: m in book && Expired(cfg, book[m], now).Some? ==> ExitOf(cfg, book[m], now) in exits)
    && (forall x :: x in exits ==> IsDue(cfg, book, x, now))
  }

  ghost predicate IsDue(cfg: Config, book: map<Mint, Position>, x: Exit, now: Time) {
    exists m :: m in book && Expired(cfg, book[m], now).Some? && x == ExitOf(cfg, book[m], now)
  }

  lemma CollectListsExpired(cfg: Config, book: map<Mint, Position>, order: seq<Mint>, now: Time)
    requires Enumerates(order, book.Keys)
    ensures ListsExpired(cfg, book, Collect(cfg, book, order, now), now)
  {
    hide Expired, ExitOf;
    CollectsDue(cfg, book, order, now);
  }

  lemma {:induction false} CollectsDue(cfg: Config, book: map<Mint, Position>, order: seq<Mint>, now: Time)
    ensures forall m :: m in order && m in book && Expired(cfg, book[m], now).Some? ==>
      ExitOf(cfg, book[m], now) in Collect(cfg, book, order, now)
    ensures forall x :: x in Collect(cfg, book, order, now) ==> IsDue(cfg, book, x, now)
  {
    hide Expired, ExitOf;
    if order != [] {
      CollectsDue(cfg, book, order[..|order| - 1], now);
      assert forall m :: m in order <==> m in order[..|order| - 1] || m == order[|order| - 1];
    }
  }

  function CloseAll(cfg: Config, exec: Executor, s: State, exits: seq<Exit>, now: Time): State
    decreases |exits|
  {
    if exits == [] then s
    else CloseAll(cfg, exec, ClosePosition(cfg, exec, s, exits[0], now, Sweep), exits[1..], now)
  }

  function SweepTimeStops(cfg: Config, exec: Executor, s: State, order: seq<Mint>, now: Time): State {
    CloseAll(cfg, exec, s, Collect(cfg, s.positions, order, now), now)
  }

  // ---- Events and runs ----

  function Handle(cfg: Config, exec: Executor, s: State, ev: Event): State
    requires cfg.Valid()
  {
    match ev
    case LaunchEvent(l) => OnLaunch(cfg, exec, s, l)
    case PriceEvent(p) => OnPriceUpdate(cfg, exec, s, p)
  }

  /** An event, with the order in which the sweep after it meets the open positions. */
  datatype Step = Step(ev: Event, order: seq<Mint>)

  function OnEvent(cfg: Config, exec: Executor, s: State, step: Step): State
    requires cfg.Valid()
  {
    SweepTimeStops(cfg, exec, Handle(cfg, exec, s, step.ev), step.order, step.ev.Ts())
  }

  ghost predicate Distinct<T>(xs: seq<T>) {
    forall i, j :: 0 <= i < j < |xs| ==> xs[i] != xs[j]
  }

  /** `order` lists exactly the members of `keys`, each once. */
  ghost predicate Enumerates<T(!new)>(order: seq<T>, keys: set<T>) {
    Distinct(order) && forall m :: m in order <==> m in keys
  }

  /** The sweep order of a step is an iteration order of the open positions it meets. */
  ghost predicate Legal(cfg: Config, exec: Executor, s: State, step: Step)
    requires cfg.Valid()
  {
    Enumerates(step.order, Handle(cfg, exec, s, step.ev).positions.Keys)
  }

  function Run(cfg: Config, exec: Executor, s: State, steps: seq<Step>): State
    requires cfg.Valid()
  {
    if steps == [] then s
    else OnEvent(cfg, exec, Run(cfg, exec, s, steps[..|steps| - 1]), steps[|steps| - 1])
  }

  ghost predicate LegalRun(cfg: Config, exec: Executor, s: State, steps: seq<Step>)
    requires cfg.Valid()
  {
    steps == [] ||
      var front := steps[..|steps| - 1];
      && LegalRun(cfg, exec, s, front)
      && Legal(cfg, exec, Run(cfg, exec, s, front), steps[|steps| - 1])
  }

  /** Event times never decrease, and none is before `start`. */
  ghost predicate Chronological(start: Time, steps: seq<Step>) {
    && (forall i :: 0 <= i < |steps| ==> start <= steps[i].ev.Ts())
    && (forall i, j :: 0 <= i < j < |steps| ==> steps[i].ev.Ts() <= steps[j].ev.Ts())
  }
}
