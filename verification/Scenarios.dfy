/** Concrete runs that show why some conditions of the run theorems are there: the order window that
    wraps around, the dust position whose snapshot is refused, and the latch that depends on the order
    of a sweep. */
module Scenarios {
  import opened Domain
  import opened Risk
  import opened Machine
  import opened Moves
  import opened Throttle
  import Confluence
  import Decimals
  import Execution
  import LatchOrder
  import PaperTrading
  import Persist
  import Resume
  import Strategy

  /** One slice of 100 dollars per token, and one order a minute. */
  const CONFIG: Config := Config(
    equityUsd := 1000.0, entryMaxAgeSecs := 60, minLiquidityUsd := 1.0, maxDevHoldPct := 10.0,
    funnelSlices := 1, funnelWindowSecs := 10, riskPerTradePct := 10.0, maxSinglePosUsd := 100.0,
    maxOpenPositions := 2, takeProfitPct := 20.0, stopLossPct := 10.0, maxHoldSecs := 60,
    maxExitAttempts := 1, convictionMinPct := 50.0, trailPct := 10.0, convictionMaxHoldSecs := 60,
    dailyLossLimitPct := 10.0, maxTradesPerMin := 1, killSwitch := false, paperSlippagePct := 0.0,
    paperImpactCoeff := 0.0, paperMaxSlippagePct := 1.0, feeBps := 0, maxTradeSubs := 1)

  function LaunchOf(mint: Mint, price: real): Launch {
    Launch(mint, PumpFun, 0, 0.0, true, false, 1.0, true, price)
  }

  function Setup(perMin: nat): Config { CONFIG.(maxTradesPerMin := perMin) }

  lemma Budget(perMin: nat, deployed: real)
    requires perMin >= 1 && 0.0 <= deployed <= 900.0
    ensures Setup(perMin).Valid() && LossLimit(Setup(perMin)) == -100.0
    ensures Strategy.PositionBudget(Setup(perMin), 1000.0, deployed) == 100.0
    ensures Strategy.SplitIntoSlices(100.0, Setup(perMin).funnelSlices) == [100.0]
  {
    assert 1000.0 * CONFIG.riskPerTradePct / 100.0 == 100.0;
  }

  /** With room in the book and in the window, a launch sends its one slice. */
  lemma LaunchSends(perMin: nat, s: State, mint: Mint, price: real, exec: Executor)
    requires mint !in s.positions && s.equity == 1000.0 && 0.0 <= s.deployed <= 900.0
    requires s.controls.openPositions < 2 && s.controls.state.day == 0 && s.controls.state.dayRealizedPnl == 0.0
    requires !s.controls.state.dailyLossTripped && !s.controls.state.kill
    requires OrderCount(Prune(s.controls.state.recentOrders, 0)) < perMin
    ensures Setup(perMin).Valid()
    ensures OnLaunch(Setup(perMin), exec, s, LaunchOf(mint, price)) ==
      SubmitSlice(Setup(perMin), exec, s, LaunchOf(mint, price), 100.0)
  {
    hide OrderCount, Prune, SubmitSlice, Strategy.PositionBudget, Strategy.SplitIntoSlices, LossLimit;
    Budget(perMin, s.deployed);
    var cfg, l := Setup(perMin), LaunchOf(mint, price);
    var settled := s.WithRisk(Settle(s.controls.state, 0));
    SettleTwice(s.controls.state, 0);
    assert DayOf(0) == 0;
    assert Strategy.EntryGate(cfg, l, 0).None? && EntryBlock(cfg, settled.controls).None?;
    assert SubmitSlice(cfg, exec, settled, l, 100.0) == SubmitSlice(cfg, exec, s, l, 100.0) by {
      SubmitSettles(cfg, s, settled, l, exec);
    }
    var (s', more) := TrySlice(cfg, exec, settled, l, 100.0);
    assert [100.0][1..] == [];
    assert SendSlices(cfg, exec, settled, l, [100.0]) == s';
  }

  lemma SubmitSettles(cfg: Config, s: State, settled: State, l: Launch, exec: Executor)
    requires settled == s.WithRisk(settled.controls.state)
    requires Settle(settled.controls.state, l.createdAt) == Settle(s.controls.state, l.createdAt)
    ensures SubmitSlice(cfg, exec, settled, l, 100.0) == SubmitSlice(cfg, exec, s, l, 100.0)
  {
    hide AddFill, Settle;
  }

  /** A position just opened by one slice of 100 tokens for 100 dollars. */
  predicate Bought(p: Position, m: Mint) {
    && p.mint == m && p.openedAt == 0 && p.qty == 100.0 && p.costUsd == 100.0 && p.mode == Flip && !p.stuck
    && p.entryPrice == 1.0 && p.highWater == 1.0
  }

  /** What such a slice does to the state. */
  lemma SliceOpens(cfg: Config, s: State, mint: Mint, exec: Executor, f: Fill)
    requires mint !in s.positions && f.mint == mint && f.ts == 0
    requires f.qty == 100.0 && f.priceUsd == 1.0 && f.notionalUsd == 100.0 && f.feeUsd == 0.0
    requires exec(SliceOrder(cfg, s, LaunchOf(mint, 1.0), 100.0)) == Filled(f)
    ensures var s' := SubmitSlice(cfg, exec, s, LaunchOf(mint, 1.0), 100.0);
      && s'.positions.Keys == s.positions.Keys + {mint} && Bought(s'.positions[mint], mint)
      && (forall m :: m in s.positions ==> s'.positions[m] == s.positions[m])
      && s'.equity == s.equity && s'.deployed == s.deployed + 100.0 && s'.orderSeq == s.orderSeq + 1
      && s'.tape == s.tape + [Traded(SliceOrder(cfg, s, LaunchOf(mint, 1.0), 100.0), Filled(f), Funnel)]
      && s'.controls == Controls(PushOrder(Settle(s.controls.state, 0), 0), |s.positions| + 1)
  {
    hide Settle;
    assert (1.0 * 0.0 + 1.0 * 100.0) / (0.0 + 100.0) == 1.0;
  }

  /** A launch with room in the book and in the window submits its slice, and nothing else. */
  lemma LaunchHandled(perMin: nat, s: State, mint: Mint, price: real, exec: Executor)
    requires mint !in s.positions && s.equity == 1000.0 && 0.0 <= s.deployed <= 900.0
    requires s.controls.openPositions < 2 && s.controls.state.day == 0 && s.controls.state.dayRealizedPnl == 0.0
    requires !s.controls.state.dailyLossTripped && !s.controls.state.kill
    requires OrderCount(Prune(s.controls.state.recentOrders, 0)) < perMin
    ensures Setup(perMin).Valid()
    ensures Handle(Setup(perMin), exec, s, LaunchEvent(LaunchOf(mint, price))) ==
      SubmitSlice(Setup(perMin), exec, s, LaunchOf(mint, price), 100.0)
  {
    hide OnLaunch, SubmitSlice, OrderCount, Prune;
    LaunchSends(perMin, s, mint, price, exec);
  }

  /** Nothing expires at the moment it was opened. */
  lemma {:induction false} NothingDue(cfg: Config, book: map<Mint, Position>, order: seq<Mint>)
    requires cfg.maxHoldSecs == 60
    requires forall m :: m in book ==> book[m].openedAt == 0 && book[m].mode == Flip
    ensures Collect(cfg, book, order, 0) == []
  {
    assert NumSeconds(0) == 0;
    if order != [] {
      NothingDue(cfg, book, order[..|order| - 1]);
    }
  }

  lemma SweepsNothing(cfg: Config, s: State, exec: Executor, step: Step)
    requires cfg.Valid() && cfg.maxHoldSecs == 60 && step.ev.Ts() == 0
    requires var book := Handle(cfg, exec, s, step.ev).positions;
      && Enumerates(step.order, book.Keys)
      && forall m :: m in book ==> book[m].openedAt == 0 && book[m].mode == Flip
    ensures Legal(cfg, exec, s, step)
    ensures OnEvent(cfg, exec, s, step) == Handle(cfg, exec, s, step.ev)
  {
    hide Handle;
    NothingDue(cfg, Handle(cfg, exec, s, step.ev).positions, step.order);
  }

  // ---- The window wraps around ----

  /** Fills the first order of a run and fails every later one. */
  function FillsFirst(): Executor {
    (o: Order) =>
      if o.id == 1 then Filled(Fill((o.mint, 1), o.mint, BuySide, 100.0, 1.0, 100.0, 0.0, 0))
      else Failed(Rejected)
  }

  const OPENING: Step := Step(LaunchEvent(LaunchOf("A", 1.0)), ["A"])
  const CRASH: Step := Step(PriceEvent(PriceUpdate("A", 0, 0.5, 1.0)), ["A"])
  const SECOND_LAUNCH: Step := Step(LaunchEvent(LaunchOf("B", 1.0)), ["A"])

  /** One position that cannot be sold, one buy, and `orders` orders in the window. */
  ghost predicate Jammed(s: State, orders: nat) {
    && s.positions.Keys == {"A"} && Unsold(s.positions["A"])
    && s.equity == 1000.0 && s.deployed == 100.0 && s.orderSeq >= 1
    && s.controls == Controls(RiskState(0.0, 0, false, false, seq(orders, _ => 0)), 1)
    && BuysIn(s.tape, 0) == 1
  }

  predicate Unsold(p: Position) {
    p.mint == "A" && p.openedAt == 0 && p.entryPrice == 1.0 && p.highWater == 1.0 && p.mode == Flip
  }

  lemma OpeningJams()
    ensures CONFIG.Valid()
    ensures Legal(CONFIG, FillsFirst(), Initial(CONFIG, 0), OPENING)
    ensures Jammed(OnEvent(CONFIG, FillsFirst(), Initial(CONFIG, 0), OPENING), 1)
  {
    hide Handle, SubmitSlice, BuysIn;
    var s, exec := Initial(CONFIG, 0), FillsFirst();
    var order := SliceOrder(CONFIG, s, LaunchOf("A", 1.0), 100.0);
    LaunchHandled(1, s, "A", 1.0, exec);
    SliceOpens(CONFIG, s, "A", exec, exec(order).fill);
    TapeSnoc([], Traded(order, exec(order), Funnel), 0);
    assert BuysIn([], 0) == 0 by { NoBuys(0); }
    SweepsNothing(CONFIG, s, exec, OPENING);
  }

  lemma NoBuys(u: Time)
    ensures BuysIn([], u) == 0
  {}

  lemma CrashStops(p: Position)
    requires Unsold(p)
    ensures var (q, exit) := Ruled(CONFIG, p, CRASH.ev.price);
      Unsold(q) && exit == Some("stop_loss")
  {
    assert GainPct(1.0, 0.5) == -50.0;
  }

  /** A price crash triggers the stop, the sell fails, and one more order is in the window. */
  lemma CrashJams(s: State, orders: nat)
    requires Jammed(s, orders)
    ensures CONFIG.Valid()
    ensures Legal(CONFIG, FillsFirst(), s, CRASH)
    ensures Jammed(OnEvent(CONFIG, FillsFirst(), s, CRASH), orders + 1)
  {
    hide Ruled;
    var exec, pu := FillsFirst(), CRASH.ev.price;
    CrashStops(s.positions["A"]);
    var (q, exit) := Ruled(CONFIG, s.positions["A"], pu);
    var observed := ObserveTick(CONFIG, s, pu);
    TapeSnoc(s.tape, Ticked("A", 0.5, 1.0, 0), 0);
    var x := ExitAt(q, 0.5, 1.0, "stop_loss");
    var s' := ClosePosition(CONFIG, exec, observed, x, 0, OnTick);
    var order := ExitOrder(observed.orderSeq + 1, x, 0);
    TapeSnoc(observed.tape, Traded(order, exec(order), OnTick), 0);
    assert seq(orders, _ => 0) + [0] == seq(orders + 1, _ => 0);
    assert Handle(CONFIG, exec, s, CRASH.ev) == s';
    SweepsNothing(CONFIG, s, exec, CRASH);
  }

  /** With 2^32 orders in the window the count reads zero, and a second launch is bought. */
  lemma SecondBuyPasses(s: State, orders: nat)
    requires Jammed(s, orders) && orders == U32_VALUES
    ensures CONFIG.Valid()
    ensures Legal(CONFIG, FillsFirst(), s, SECOND_LAUNCH)
    ensures BuysIn(OnEvent(CONFIG, FillsFirst(), s, SECOND_LAUNCH).tape, 0) == 2
  {
    var exec, l := FillsFirst(), LaunchOf("B", 1.0);
    PruneNothing(s.controls.state.recentOrders);
    LaunchHandled(1, s, "B", 1.0, exec);
    var s' := SubmitSlice(CONFIG, exec, s, l, 100.0);
    var order := SliceOrder(CONFIG, s, l, 100.0);
    TapeSnoc(s.tape, Traded(order, exec(order), Funnel), 0);
    assert Handle(CONFIG, exec, s, SECOND_LAUNCH.ev) == s';
    SweepsNothing(CONFIG, s, exec, SECOND_LAUNCH);
  }

  lemma PruneNothing(times: seq<Time>)
    requires forall i :: 0 <= i < |times| ==> times[i] == 0
    ensures Prune(times, 0) == times
  {
    assert NumSeconds(0) == 0;
  }

  /** The opening launch and `crashes` ticks. */
  function Jam(crashes: nat): seq<Step> { [OPENING] + seq(crashes, _ => CRASH) }

  lemma {:induction false} JamJams(crashes: nat)
    ensures CONFIG.Valid()
    ensures LegalRun(CONFIG, FillsFirst(), Initial(CONFIG, 0), Jam(crashes))
    ensures Jammed(Run(CONFIG, FillsFirst(), Initial(CONFIG, 0), Jam(crashes)), crashes + 1)
  {
    hide OnEvent, Legal, Jammed, Initial;
    var exec, s0, steps := FillsFirst(), Initial(CONFIG, 0), Jam(crashes);
    if crashes == 0 {
      OpeningJams();
      assert steps == [OPENING] && steps[..0] == [];
    } else {
      JamJams(crashes - 1);
      assert steps[..|steps| - 1] == Jam(crashes - 1) && steps[|steps| - 1] == CRASH;
      CrashJams(Run(CONFIG, exec, s0, Jam(crashes - 1)), crashes);
    }
  }

  /** The rate limit can fail. A limit of one buy a minute is broken by a legal run: a buy that
      fills, 2^32 - 1 ticks whose sells fail, and a second launch, all at the same instant. */
  lemma RateLimitCanWrap(crashes: nat)
    requires crashes + 1 == U32_VALUES
    ensures var steps := Jam(crashes) + [SECOND_LAUNCH];
      && CONFIG.Valid() && CONFIG.maxTradesPerMin == 1
      && LegalRun(CONFIG, FillsFirst(), Initial(CONFIG, 0), steps)
      && Machine.Chronological(0, steps)
      && BuysIn(Run(CONFIG, FillsFirst(), Initial(CONFIG, 0), steps).tape, 0) == 2
  {
    hide OnEvent, Legal, Jammed, Initial, BuysIn;
    var exec, s0 := FillsFirst(), Initial(CONFIG, 0);
    var steps := Jam(crashes) + [SECOND_LAUNCH];
    JamJams(crashes);
    assert steps[..|steps| - 1] == Jam(crashes);
    SecondBuyPasses(Run(CONFIG, exec, s0, Jam(crashes)), crashes + 1);
  }

  // ---- A snapshot that is refused ----

  const DUST_PRICE: real := 1000000000000000.0
  const DUST_LAUNCH: Step := Step(LaunchEvent(LaunchOf("DUST", DUST_PRICE)), ["DUST"])

  function NeverFails(): (Mint, nat) -> bool { (_, _) => false }

  /** A paper run can end in a snapshot that cannot be restored: the only slice of a very dear token
      is filled with a quantity that rounds to zero, and restore refuses an empty position. */
  lemma DustSnapshotIsRefused(reboot: Time, snap: Persist.EngineState)
    ensures var exec := Execution.Paper(CONFIG, NeverFails());
      && CONFIG.Valid()
      && LegalRun(CONFIG, exec, Initial(CONFIG, 0), [DUST_LAUNCH])
      && var s := Run(CONFIG, exec, Initial(CONFIG, 0), [DUST_LAUNCH]);
      && s.positions.Keys == {"DUST"} && s.positions["DUST"].qty == 0.0
      && (Persist.SnapshotOf(s, snap) ==> !Persist.Sound(CONFIG, Persist.Resumed(CONFIG, reboot, snap, s.tape)))
  {
    hide Execution.Paper, Persist.Sound, Execution.BuyPrice, Execution.Notional, Execution.FeeOf;
    var s0, exec, l := Initial(CONFIG, 0), Execution.Paper(CONFIG, NeverFails()), LaunchOf("DUST", DUST_PRICE);
    LaunchHandled(1, s0, "DUST", DUST_PRICE, exec);
    var o := SliceOrder(CONFIG, s0, l, 100.0);
    PaperTrading.BuyIsAccepted(CONFIG, NeverFails(), o);
    PaperTrading.DustSettlesToNothing(CONFIG, NeverFails(), o);
    PaperTrading.PaperIsFaithful(CONFIG, NeverFails());
    assert Execution.FaithfulAt(exec, o);
    SliceOutcome(CONFIG, exec, s0, l, 100.0);
    var s' := SubmitSlice(CONFIG, exec, s0, l, 100.0);
    assert Handle(CONFIG, exec, s0, DUST_LAUNCH.ev) == s';
    assert s'.positions.Keys == {"DUST"};
    SweepsNothing(CONFIG, s0, exec, DUST_LAUNCH);
    assert [DUST_LAUNCH][..0] == [];
    assert Run(CONFIG, exec, s0, [DUST_LAUNCH]) == s';
    if Persist.SnapshotOf(s', snap) {
      Resume.SnapshotAcceptedIff(CONFIG, exec, 0, [DUST_LAUNCH], reboot, snap);
    }
  }

  // ---- A latch that depends on the sweep order ----

  /** Fills every buy at its slice; sells token A for nothing and any other for 150 dollars. */
  function SellsByToken(): Executor {
    (o: Order) =>
      if o.BuyOrder? then Filled(Fill((o.mint, o.id), o.mint, BuySide, 100.0, 1.0, 100.0, 0.0, o.now))
      else Filled(Fill((o.mint, o.id), o.mint, SellSide, o.qty, 1.0, if o.mint == "A" then 0.0 else 150.0, 0.0, o.now))
  }

  const PAIR: Config := Setup(2)
  const NEXT: Step := Step(LaunchEvent(LaunchOf("B", 1.0)), ["A", "B"])

  /** A tick of a token that is not held, when both positions have expired. */
  function Quiet(order: seq<Mint>): Step {
    Step(PriceEvent(PriceUpdate("C", 60 * SECOND, 1.0, 1.0)), order)
  }

  ghost predicate OneOpen(s: State) {
    && s.positions.Keys == {"A"} && Bought(s.positions["A"], "A")
    && s.equity == 1000.0 && s.deployed == 100.0
    && s.controls == Controls(RiskState(0.0, 0, false, false, [0]), 1)
  }

  ghost predicate TwoOpen(s: State) {
    && s.positions.Keys == {"A", "B"} && Bought(s.positions["A"], "A") && Bought(s.positions["B"], "B")
    && s.controls == Controls(RiskState(0.0, 0, false, false, [0, 0]), 2)
  }

  lemma OpensOne()
    ensures PAIR.Valid()
    ensures Legal(PAIR, SellsByToken(), Initial(PAIR, 0), OPENING)
    ensures OneOpen(OnEvent(PAIR, SellsByToken(), Initial(PAIR, 0), OPENING))
  {
    hide Handle, SubmitSlice;
    var s, exec := Initial(PAIR, 0), SellsByToken();
    LaunchHandled(2, s, "A", 1.0, exec);
    SliceOpens(PAIR, s, "A", exec, exec(SliceOrder(PAIR, s, LaunchOf("A", 1.0), 100.0)).fill);
    SweepsNothing(PAIR, s, exec, OPENING);
  }

  lemma SliceOpensSecond(s: State)
    requires OneOpen(s)
    ensures TwoOpen(SubmitSlice(PAIR, SellsByToken(), s, LaunchOf("B", 1.0), 100.0))
  {
    hide SubmitSlice, Prune;
    var exec := SellsByToken();
    PruneNothing([0]);
    SliceOpens(PAIR, s, "B", exec, exec(SliceOrder(PAIR, s, LaunchOf("B", 1.0), 100.0)).fill);
    assert |s.positions| == |s.positions.Keys|;
    assert DayOf(0) == 0;
  }

  lemma OpensTwo(s: State)
    requires OneOpen(s)
    ensures PAIR.Valid()
    ensures Legal(PAIR, SellsByToken(), s, NEXT)
    ensures TwoOpen(OnEvent(PAIR, SellsByToken(), s, NEXT))
  {
    hide Handle, SubmitSlice, OnEvent, Legal, Prune, OrderCount;
    PruneNothing([0]);
    assert OrderCount([0]) == 1 by { CountsOne(); }
    LaunchHandled(2, s, "B", 1.0, SellsByToken());
    SliceOpensSecond(s);
    SweepsNothing(PAIR, s, SellsByToken(), NEXT);
  }

  lemma CountsOne()
    ensures OrderCount([0]) == 1
  {}

  lemma ExpiredSells(book: map<Mint, Position>, m: Mint)
    requires m in book && Bought(book[m], m)
    ensures var o := Confluence.OutcomeOf(PAIR, SellsByToken(), book, m, 60 * SECOND);
      o.SoldAs? && o.trade.pnlUsd == if m == "A" then -100.0 else 50.0
  {
    hide Decimals.Round12;
    assert NumSeconds(60 * SECOND) == 60;
    assert Decimals.Units(150.0) == 150000000000000 as real;
    Decimals.RoundIdentity(0.0);
    Decimals.RoundIdentity(150.0);
  }

  lemma PnlsOfPair(book: map<Mint, Position>, m: Mint, n: Mint)
    requires m in book && Bought(book[m], m) && n in book && Bought(book[n], n)
    ensures LatchOrder.PnlsOf(PAIR, SellsByToken(), book, [m, n], 60 * SECOND) ==
      [if m == "A" then -100.0 else 50.0, if n == "A" then -100.0 else 50.0]
  {
    hide Confluence.OutcomeOf;
    ExpiredSells(book, m);
    ExpiredSells(book, n);
    var one, two := [m], [m, n];
    assert one[..|one| - 1] == [] && two[..|two| - 1] == one;
    assert LatchOrder.PnlsOf(PAIR, SellsByToken(), book, one, 60 * SECOND) == [if m == "A" then -100.0 else 50.0];
  }

  lemma AnswersByContent()
    ensures Confluence.IdBlind(SellsByToken())
  {}

  lemma LossFirstTrips()
    ensures LatchOrder.Trips(0.0, [-100.0, 50.0], -100.0)
    ensures !LatchOrder.Trips(0.0, [50.0, -100.0], -100.0)
  {
    var xs, ys := [-100.0, 50.0], [50.0, -100.0];
    assert xs[..1] == [-100.0] && [-100.0][1..] == [];
    assert LatchOrder.TripsAt(0.0, xs, -100.0, 1);
    assert ys[..1] == [50.0] && [50.0][1..] == [] && ys[..2] == ys && ys[1..] == [-100.0];
    assert Strategy.Sum([50.0]) == 50.0 && Strategy.Sum(ys) == -50.0;
  }

  /** The sweep order can decide the latch: with two expired positions, one that sells for nothing
      and one that sells at a gain, sweeping the loser first trips the daily-loss latch and sweeping
      it last does not. Both runs are legal, and the executor answers by content. */
  lemma SweepOrderDecidesLatch()
    ensures var exec, s0 := SellsByToken(), Initial(PAIR, 0);
      var loserFirst, loserLast := [OPENING, NEXT, Quiet(["A", "B"])], [OPENING, NEXT, Quiet(["B", "A"])];
      && PAIR.Valid() && Confluence.IdBlind(exec)
      && LegalRun(PAIR, exec, s0, loserFirst) && LegalRun(PAIR, exec, s0, loserLast)
      && Run(PAIR, exec, s0, loserFirst).controls.state.dailyLossTripped
      && !Run(PAIR, exec, s0, loserLast).controls.state.dailyLossTripped
  {
    hide OnEvent, Legal, OneOpen, TwoOpen, Initial, Confluence.IdBlind;
    var exec, s0 := SellsByToken(), Initial(PAIR, 0);
    OpensOne();
    var s1 := OnEvent(PAIR, exec, s0, OPENING);
    OpensTwo(s1);
    var s2 := OnEvent(PAIR, exec, s1, NEXT);
    AnswersByContent();
    QuietSweep(s2, "A", "B");
    QuietSweep(s2, "B", "A");
    LossFirstTrips();
    RunOfThree(exec, s0, Quiet(["A", "B"]));
    RunOfThree(exec, s0, Quiet(["B", "A"]));
  }

  lemma QuietSweep(s: State, m: Mint, n: Mint)
    requires TwoOpen(s) && {m, n} == {"A", "B"}
    ensures PAIR.Valid()
    ensures Legal(PAIR, SellsByToken(), s, Quiet([m, n]))
    ensures OnEvent(PAIR, SellsByToken(), s, Quiet([m, n])).controls.state.dailyLossTripped <==>
      LatchOrder.Trips(0.0, [if m == "A" then -100.0 else 50.0, if n == "A" then -100.0 else 50.0], -100.0)
  {
    hide LatchOrder.Trips, Confluence.IdBlind, CloseAll, Collect, LossLimit;
    Budget(2, 0.0);
    AnswersByContent();
    assert Handle(PAIR, SellsByToken(), s, Quiet([m, n]).ev) == s;
    assert DayOf(60 * SECOND) == 0;
    PnlsOfPair(s.positions, m, n);
    LatchOrder.LatchClosedForm(PAIR, SellsByToken(), s, [m, n], 60 * SECOND);
  }

  lemma RunOfThree(exec: Executor, s0: State, last: Step)
    requires PAIR.Valid()
    ensures var s1 := OnEvent(PAIR, exec, s0, OPENING);
      var s2 := OnEvent(PAIR, exec, s1, NEXT);
      && Run(PAIR, exec, s0, [OPENING, NEXT, last]) == OnEvent(PAIR, exec, s2, last)
      && (LegalRun(PAIR, exec, s0, [OPENING, NEXT, last]) <==>
            Legal(PAIR, exec, s0, OPENING) && Legal(PAIR, exec, s1, NEXT) && Legal(PAIR, exec, s2, last))
  {
    hide OnEvent, Legal;
    var one, two, three := [OPENING], [OPENING, NEXT], [OPENING, NEXT, last];
    assert one[..|one| - 1] == [] && two[..|two| - 1] == one && three[..|three| - 1] == two;
    assert Run(PAIR, exec, s0, one) == OnEvent(PAIR, exec, s0, OPENING);
    assert LegalRun(PAIR, exec, s0, one) <==> Legal(PAIR, exec, s0, OPENING);
  }
}
