/** What a launch buys: which launches are admitted, for how much, and exactly which orders the funnel
    sends. The conditions are written out over the launch, the configuration and the state. */
module Entries {
  import opened Decimals
  import opened Domain
  import opened Risk
  import opened Machine
  import opened Moves
  import opened Strategy
  import opened Throttle
  import Execution
  import SellRules

  // ---- Who is admitted ----

  /** A launch that is safe enough to buy: no honeypot, little held by its creator, and either still on
      the bonding curve or liquid with a renounced mint. */
  predicate Clean(cfg: Config, l: Launch) {
    && !l.isHoneypot
    && l.creatorHoldPct <= cfg.maxDevHoldPct
    && (l.onCurve || (l.liquidityUsd >= cfg.minLiquidityUsd && l.mintRenounced))
  }

  /** The controls let a new position be opened at `now`, with `inWindow` orders in the last minute. */
  predicate ControlsOpen(cfg: Config, s: State, now: Time, inWindow: nat) {
    var r := s.controls.state;
    var today := r.day == DayOf(now);
    && !r.kill
    && !(today && r.dailyLossTripped)
    && (if today then r.dayRealizedPnl else 0.0) > -(cfg.equityUsd * cfg.dailyLossLimitPct / 100.0)
    && s.controls.openPositions < cfg.maxOpenPositions
    && HasRoom(cfg, inWindow)
  }

  /** The throttle lets one more order through after `inWindow` orders, as it counts them in 32 bits. */
  predicate HasRoom(cfg: Config, inWindow: nat) { inWindow % 0x1_0000_0000 < cfg.maxTradesPerMin }

  /** The tightest of the risk per trade, the position cap and the free capital. */
  function Affordable(cfg: Config, equity: real, deployed: real): real {
    if deployed > equity then 0.0
    else Min(equity - deployed, Min(cfg.maxSinglePosUsd, equity / 100.0 * cfg.riskPerTradePct))
  }

  predicate Admitted(cfg: Config, s: State, l: Launch, inWindow: nat) {
    && l.mint !in s.positions
    && Clean(cfg, l)
    && ControlsOpen(cfg, s, l.createdAt, inWindow)
    && Affordable(cfg, s.equity, s.deployed) > 0.0
  }

  lemma BudgetIsAffordable(cfg: Config, equity: real, deployed: real)
    ensures PositionBudget(cfg, equity, deployed) == Affordable(cfg, equity, deployed)
  {
    assert equity * cfg.riskPerTradePct / 100.0 == equity / 100.0 * cfg.riskPerTradePct;
  }

  lemma GateAdmitsClean(cfg: Config, l: Launch)
    ensures EntryGate(cfg, l, l.createdAt).None? <==> Clean(cfg, l)
  {
    LaunchIsNeverLate(cfg, l);
  }

  lemma BlockIffClosed(cfg: Config, s: State, now: Time)
    ensures var settled := Settle(s.controls.state, now);
      EntryBlock(cfg, s.controls.(state := settled)).None? <==>
        ControlsOpen(cfg, s, now, |Prune(s.controls.state.recentOrders, now)|)
  {
    hide Prune;
    assert LossLimit(cfg) == -(cfg.equityUsd * cfg.dailyLossLimitPct / 100.0);
    hide LossLimit;
  }

  // ---- What the funnel sends ----

  /** The `i`-th order of the funnel. */
  function FunnelOrder(cfg: Config, id: nat, l: Launch, slice: real): Order {
    BuyOrder(id, l.mint, slice, l.priceUsd, l.liquidityUsd, l.createdAt,
             l.createdAt + cfg.funnelWindowSecs * 1_000_000_000)
  }

  /** Between the two tapes the slices were sent in order, each in an order of its own; only the last
      one sent may have failed; and sending stopped early exactly because the last one failed or the
      throttle, with `inWindow` orders in the last minute before, refused the next. */
  ghost predicate FunnelSent(cfg: Config, exec: Executor, tape: seq<Entry>, tape': seq<Entry>, id: nat, l: Launch,
      slices: seq<real>, inWindow: nat)
  {
    var n := |tape'| - |tape|;
    && tape <= tape' && n <= |slices|
    && (forall i: nat :: i < n ==> SentAt(cfg, exec, tape, tape', id, l, slices, inWindow, i))
    && (n == |slices|
        || (n > 0 && Answer(cfg, exec, id + (n - 1), l, slices[n - 1]).Failed?)
        || !HasRoom(cfg, inWindow + n))
  }

  /** The `i`-th slice went out, the throttle had room for it, and it filled unless it was the last. */
  predicate SentAt(cfg: Config, exec: Executor, tape: seq<Entry>, tape': seq<Entry>, id: nat, l: Launch,
      slices: seq<real>, inWindow: nat, i: nat)
    requires |tape| + i < |tape'| && i < |slices|
  {
    && tape'[|tape| + i] == SliceEntry(cfg, exec, id + i, l, slices[i])
    && HasRoom(cfg, inWindow + i)
    && (|tape| + i < |tape'| - 1 ==> Answer(cfg, exec, id + i, l, slices[i]).Filled?)
  }

  function SliceEntry(cfg: Config, exec: Executor, id: nat, l: Launch, slice: real): Entry {
    Traded(FunnelOrder(cfg, id, l, slice), Answer(cfg, exec, id, l, slice), Funnel)
  }

  function Answer(cfg: Config, exec: Executor, id: nat, l: Launch, slice: real): Reply {
    exec(FunnelOrder(cfg, id, l, slice))
  }

  /** What one slice does to the tape, the numbering and the order window. */
  lemma SliceSends(cfg: Config, exec: Executor, s: State, l: Launch, slice: real)
    ensures var (s', more) := TrySlice(cfg, exec, s, l, slice);
      var w := |Prune(s.controls.state.recentOrders, l.createdAt)|;
      var e := SliceEntry(cfg, exec, s.orderSeq + 1, l, slice);
      if HasRoom(cfg, w)
      then s'.tape == s.tape + [e] && s'.orderSeq == s.orderSeq + 1
        && (more <==> Answer(cfg, exec, s.orderSeq + 1, l, slice).Filled?)
        && |Prune(s'.controls.state.recentOrders, l.createdAt)| == w + 1
      else s'.tape == s.tape && !more
  {
    hide AddFill, Opened, DayOf, Prune;
    LaunchIsNeverLate(cfg, l);
    SettledWindow(s.controls.state, l.createdAt);
    SettleTwice(s.controls.state, l.createdAt);
    PrunePushed(s.controls.state.recentOrders, l.createdAt);
  }

  lemma PrunePushed(times: seq<Time>, now: Time)
    ensures Prune(Prune(times, now) + [now], now) == Prune(times, now) + [now]
  {
    PruneTwice(times, now);
    var kept := Prune(times, now);
    PruneHead(times, now);
    if kept != [] {
      assert (kept + [now])[0] == kept[0];
    } else {
      assert kept + [now] == [now] && NumSeconds(0) == 0;
    }
  }

  lemma {:induction false} PruneHead(times: seq<Time>, now: Time)
    ensures var kept := Prune(times, now); kept != [] ==> NumSeconds(now - kept[0]) < WINDOW_SECS
  {
    if times != [] && NumSeconds(now - times[0]) >= WINDOW_SECS {
      PruneHead(times[1..], now);
    }
  }

  lemma {:induction false} SlicesAreSent(cfg: Config, exec: Executor, s: State, l: Launch, slices: seq<real>)
    ensures FunnelSent(cfg, exec, s.tape, SendSlices(cfg, exec, s, l, slices).tape, s.orderSeq + 1, l, slices,
      |Prune(s.controls.state.recentOrders, l.createdAt)|)
    decreases |slices|
  {
    hide TrySlice, Prune, SliceEntry, Answer, HasRoom;
    if slices != [] {
      var (s1, more) := TrySlice(cfg, exec, s, l, slices[0]);
      SliceSends(cfg, exec, s, l, slices[0]);
      if more {
        var w := |Prune(s.controls.state.recentOrders, l.createdAt)|;
        SlicesAreSent(cfg, exec, s1, l, slices[1..]);
        SentOneMore(cfg, exec, s.tape, s1.tape, SendSlices(cfg, exec, s1, l, slices[1..]).tape, s.orderSeq + 1, l,
                    slices, w);
      }
    }
  }

  /** A filled first slice and the rest of the funnel after it are the whole funnel. */
  lemma SentOneMore(cfg: Config, exec: Executor, tape: seq<Entry>, tape1: seq<Entry>, tape': seq<Entry>, id: nat,
      l: Launch, slices: seq<real>, inWindow: nat)
    requires slices != [] && HasRoom(cfg, inWindow)
    requires tape1 == tape + [SliceEntry(cfg, exec, id, l, slices[0])] && Answer(cfg, exec, id, l, slices[0]).Filled?
    requires FunnelSent(cfg, exec, tape1, tape', id + 1, l, slices[1..], inWindow + 1)
    ensures FunnelSent(cfg, exec, tape, tape', id, l, slices, inWindow)
  {
    hide SliceEntry, Answer, HasRoom;
    var n := |tape'| - |tape|;
    forall i: nat | i < n
      ensures SentAt(cfg, exec, tape, tape', id, l, slices, inWindow, i)
    {
      if i == 0 {
        assert tape'[|tape|] == tape1[|tape|];
      } else {
        var j: nat := i - 1;
        assert SentAt(cfg, exec, tape1, tape', id + 1, l, slices[1..], inWindow + 1, j);
        assert slices[1..][j] == slices[i] && id + 1 + j == id + i && inWindow + 1 + j == inWindow + i;
      }
    }
    var n1 := |tape'| - |tape1|;
    assert n == n1 + 1 && tape <= tape1 <= tape';
    if n1 > 0 {
      assert slices[1..][n1 - 1] == slices[n - 1];
      assert Answer(cfg, exec, id + 1 + (n1 - 1), l, slices[n - 1]) ==
        Answer(cfg, exec, id + (n - 1), l, slices[n - 1]);
    }
    assert inWindow + 1 + n1 == inWindow + n;
  }

  /** What a launch sends: if it is admitted, the slices of what is affordable, as the funnel sends them,
      and if not, nothing, leaving book and money alone. */
  lemma LaunchSends(cfg: Config, exec: Executor, s: State, l: Launch)
    requires cfg.Valid()
    ensures var s', w := OnLaunch(cfg, exec, s, l), |Prune(s.controls.state.recentOrders, l.createdAt)|;
      if Admitted(cfg, s, l, w)
      then FunnelSent(cfg, exec, s.tape, s'.tape, s.orderSeq + 1, l,
             SplitIntoSlices(Affordable(cfg, s.equity, s.deployed), cfg.funnelSlices), w)
      else s' == s.WithRisk(s'.controls.state)
  {
    hide SendSlices, PositionBudget, SplitIntoSlices, Affordable, EntryGate, Clean, EntryBlock, ControlsOpen, Prune,
      FunnelSent;
    var settled := s.WithRisk(Settle(s.controls.state, l.createdAt));
    var slices := SplitIntoSlices(Affordable(cfg, s.equity, s.deployed), cfg.funnelSlices);
    BudgetIsAffordable(cfg, s.equity, s.deployed);
    GateAdmitsClean(cfg, l);
    BlockIffClosed(cfg, s, l.createdAt);
    SlicesAreSent(cfg, exec, settled, l, slices);
    PruneTwice(s.controls.state.recentOrders, l.createdAt);
    SettledWindow(s.controls.state, l.createdAt);
  }

  lemma SettledWindow(r: RiskState, now: Time)
    ensures Settle(r, now).recentOrders == Prune(r.recentOrders, now)
  {}

  // ---- Over runs ----

  /** The launch law. After any legal run with nondecreasing event times, an admitted launch, judged by
      the orders really sent in the last minute, sends the slices of what is affordable, and at least
      one of them; any other launch sends nothing and changes neither book nor money. */
  lemma LaunchLaw(cfg: Config, exec: Executor, boot: Time, start: Time, steps: seq<Step>, l: Launch)
    requires cfg.Valid() && LegalRun(cfg, exec, Initial(cfg, boot), steps)
    requires Machine.Chronological(start, steps)
    ensures LastTs(start, steps) <= l.createdAt ==>
      LaunchedRightly(cfg, exec, Run(cfg, exec, Initial(cfg, boot), steps), l)
  {
    hide Run, LegalRun, OnLaunch, Affordable, CountsFit, Clean, ControlsOpen, SplitIntoSlices;
    var s := Run(cfg, exec, Initial(cfg, boot), steps);
    if LastTs(start, steps) <= l.createdAt {
      RunIsThrottled(cfg, exec, boot, start, steps);
      assert Throttle.Throttled(cfg, s, l.createdAt);
      SettleKeepsThrottled(cfg, s, l.createdAt, []);
      assert FreshOrders([], l.createdAt) == 0;
      LaunchSends(cfg, exec, s, l);
      var w := FreshOrders(s.tape, l.createdAt);
      if Admitted(cfg, s, l, w) {
        RoomAtFirst(cfg, s, l, w);
        SlicesAreExact(Affordable(cfg, s.equity, s.deployed), cfg.funnelSlices);
        FirstIsBuy(cfg, exec, s.tape, OnLaunch(cfg, exec, s, l).tape, s.orderSeq + 1, l,
          SplitIntoSlices(Affordable(cfg, s.equity, s.deployed), cfg.funnelSlices), w);
      }
    }
  }

  /** An admitted launch sends the funnel, and at least one buy; any other changes nothing but the
      controls. */
  ghost predicate LaunchedRightly(cfg: Config, exec: Executor, s: State, l: Launch)
    requires cfg.Valid()
  {
    var s', w := OnLaunch(cfg, exec, s, l), FreshOrders(s.tape, l.createdAt);
    if Admitted(cfg, s, l, w)
    then
      && FunnelSent(cfg, exec, s.tape, s'.tape, s.orderSeq + 1, l,
           SplitIntoSlices(Affordable(cfg, s.equity, s.deployed), cfg.funnelSlices), w)
      && |s'.tape| > |s.tape| && IsBuy(s'.tape[|s.tape|])
    else s' == s.WithRisk(s'.controls.state)
  }

  lemma RoomAtFirst(cfg: Config, s: State, l: Launch, w: nat)
    requires Admitted(cfg, s, l, w)
    ensures HasRoom(cfg, w) && Affordable(cfg, s.equity, s.deployed) > 0.0
  {}

  lemma FirstIsBuy(cfg: Config, exec: Executor, tape: seq<Entry>, tape': seq<Entry>, id: nat, l: Launch,
      slices: seq<real>, w: nat)
    requires FunnelSent(cfg, exec, tape, tape', id, l, slices, w) && HasRoom(cfg, w) && |slices| >= 1
    ensures |tape'| > |tape| && IsBuy(tape'[|tape|])
  {
    if |tape'| > |tape| {
      assert SentAt(cfg, exec, tape, tape', id, l, slices, w, 0);
    }
  }

  // ---- What the funnel spends ----

  /** The budgets of the buys on a tape. */
  function Submitted(tape: seq<Entry>): real {
    if tape == [] then 0.0
    else
      var e := tape[|tape| - 1];
      Submitted(tape[..|tape| - 1]) + if IsBuy(e) then e.order.budgetUsd else 0.0
  }

  lemma {:induction false} SubmittedAppend(a: seq<Entry>, b: seq<Entry>)
    ensures Submitted(a + b) == Submitted(a) + Submitted(b)
    decreases |b|
  {
    if b == [] {
      assert a + b == a;
    } else {
      SubmittedAppend(a, b[..|b| - 1]);
      assert (a + b)[..|a + b| - 1] == a + b[..|b| - 1];
    }
  }

  lemma {:induction false} SubmittedSlices(sent: seq<Entry>, slices: seq<real>)
    requires |sent| <= |slices|
    requires forall i :: 0 <= i < |sent| ==> IsBuy(sent[i]) && sent[i].order.budgetUsd == slices[i]
    ensures Submitted(sent) == Sum(slices[..|sent|])
  {
    if sent == [] {
      assert slices[..0] == [];
    } else {
      var k := |sent| - 1;
      SubmittedSlices(sent[..k], slices);
      assert slices[..|sent|] == slices[..k] + [slices[k]];
      SumSnoc(slices[..k], slices[k]);
    }
  }

  lemma {:induction false} PrefixSums(xs: seq<real>, n: nat)
    requires n <= |xs| && forall i :: 0 <= i < |xs| ==> xs[i] > 0.0
    ensures Sum(xs[..n]) <= Sum(xs) && (Sum(xs[..n]) == Sum(xs) <==> n == |xs|)
  {
    if n == 0 {
      assert xs[..0] == [];
      if xs != [] {
        PrefixSums(xs[1..], 0);
        assert xs[1..][..0] == [];
      }
    } else {
      PrefixSums(xs[1..], n - 1);
      assert xs[..n][1..] == xs[1..][..n - 1];
    }
  }

  /** What a funnel submits never exceeds what is affordable, and is all of it exactly if every slice
      was sent. */
  lemma FunnelSubmits(cfg: Config, exec: Executor, tape: seq<Entry>, tape': seq<Entry>, id: nat, l: Launch,
      total: real, w: nat)
    requires cfg.Valid() && total > 0.0
    requires FunnelSent(cfg, exec, tape, tape', id, l, SplitIntoSlices(total, cfg.funnelSlices), w)
    ensures var submitted := Submitted(tape') - Submitted(tape);
      && submitted <= total
      && (submitted == total <==> |tape'| - |tape| == |SplitIntoSlices(total, cfg.funnelSlices)|)
  {
    hide SplitIntoSlices;
    var slices, sent := SplitIntoSlices(total, cfg.funnelSlices), tape'[|tape|..];
    SlicesAreExact(total, cfg.funnelSlices);
    assert tape' == tape + sent;
    SubmittedAppend(tape, sent);
    forall i | 0 <= i < |sent| ensures IsBuy(sent[i]) && sent[i].order.budgetUsd == slices[i] {
      assert SentAt(cfg, exec, tape, tape', id, l, slices, w, i);
      assert sent[i] == tape'[|tape| + i];
    }
    SubmittedSlices(sent, slices);
    PrefixSums(slices, |sent|);
  }

  lemma LaunchSubmits(cfg: Config, exec: Executor, s: State, l: Launch)
    requires cfg.Valid()
    ensures var submitted := Submitted(OnLaunch(cfg, exec, s, l).tape) - Submitted(s.tape);
      submitted != 0.0 ==>
        submitted <= Affordable(cfg, s.equity, s.deployed) && 0.0 < Affordable(cfg, s.equity, s.deployed)
  {
    hide OnLaunch, SplitIntoSlices, FunnelSent, Admitted, Affordable, Submitted;
    var w, total := |Prune(s.controls.state.recentOrders, l.createdAt)|, Affordable(cfg, s.equity, s.deployed);
    LaunchSends(cfg, exec, s, l);
    if Admitted(cfg, s, l, w) {
      RoomAtFirst(cfg, s, l, w);
      FunnelSubmits(cfg, exec, s.tape, OnLaunch(cfg, exec, s, l).tape, s.orderSeq + 1, l, total, w);
    }
  }

  lemma EventSubmits(cfg: Config, exec: Executor, s: State, step: Step)
    requires cfg.Valid() && Coherent(s)
    ensures var submitted := Submitted(OnEvent(cfg, exec, s, step).tape) - Submitted(s.tape);
      submitted != 0.0 ==>
        submitted <= Affordable(cfg, s.equity, s.deployed) && 0.0 < Affordable(cfg, s.equity, s.deployed)
  {
    hide OnLaunch, OnPriceUpdate, CloseAll, Collect, Affordable, Coherent, Submitted;
    var handled := Handle(cfg, exec, s, step.ev);
    SweepBuysNothing(cfg, exec, handled, Collect(cfg, handled.positions, step.order, step.ev.Ts()), step.ev.Ts());
    match step.ev
    case LaunchEvent(l) => LaunchSubmits(cfg, exec, s, l);
    case PriceEvent(pu) => TickBuysNothing(cfg, exec, s, pu);
  }

  /** Risk per trade. Whatever an event submits to buy is at most the configured share of the equity of
      the moment, at most the position cap, and at most the free capital. */
  lemma RiskPerTradeHolds(cfg: Config, exec: Executor, s: State, step: Step)
    requires cfg.Valid() && Coherent(s)
    ensures var submitted := Submitted(OnEvent(cfg, exec, s, step).tape) - Submitted(s.tape);
      submitted != 0.0 ==>
        && submitted <= s.equity * cfg.riskPerTradePct / 100.0
        && submitted <= cfg.maxSinglePosUsd
        && submitted <= s.equity - s.deployed
  {
    hide OnEvent, Affordable, Coherent, Submitted;
    EventSubmits(cfg, exec, s, step);
    AffordableIsTightest(cfg, s.equity, s.deployed);
  }

  lemma AffordableIsTightest(cfg: Config, equity: real, deployed: real)
    ensures var a := Affordable(cfg, equity, deployed);
      a > 0.0 ==> a <= equity * cfg.riskPerTradePct / 100.0 && a <= cfg.maxSinglePosUsd && a <= equity - deployed
  {
    assert equity * cfg.riskPerTradePct / 100.0 == equity / 100.0 * cfg.riskPerTradePct;
  }

  lemma {:induction false} SellsSubmitNothing(sent: seq<Entry>)
    requires forall i :: 0 <= i < |sent| ==> !IsBuy(sent[i])
    ensures Submitted(sent) == 0.0
  {
    if sent != [] {
      SellsSubmitNothing(sent[..|sent| - 1]);
    }
  }

  lemma SweepBuysNothing(cfg: Config, exec: Executor, s: State, exits: seq<Exit>, now: Time)
    ensures var s' := CloseAll(cfg, exec, s, exits, now);
      && s.tape <= s'.tape && Submitted(s'.tape) == Submitted(s.tape)
      && forall k :: |s.tape| <= k < |s'.tape| ==> !IsBuy(s'.tape[k])
  {
    hide CloseAll;
    var s' := CloseAll(cfg, exec, s, exits, now);
    SellRules.CloseAllSends(cfg, exec, s, exits, now);
    forall k | |s.tape| <= k < |s'.tape| ensures !IsBuy(s'.tape[k]) {
      var i := k - |s.tape|;
      var o := ExitOrder(s.orderSeq + 1 + i, exits[i], now);
      assert s'.tape[|s.tape| + i] == Traded(o, exec(o), Sweep);
    }
    NoBuysSubmitNothing(s.tape, s'.tape);
  }

  lemma NoBuysSubmitNothing(tape: seq<Entry>, tape': seq<Entry>)
    requires tape <= tape' && forall k :: |tape| <= k < |tape'| ==> !IsBuy(tape'[k])
    ensures Submitted(tape') == Submitted(tape)
  {
    hide Submitted;
    var added := tape'[|tape|..];
    assert tape' == tape + added;
    SubmittedAppend(tape, added);
    SellsSubmitNothing(added);
  }

  lemma TickBuysNothing(cfg: Config, exec: Executor, s: State, pu: PriceUpdate)
    requires Coherent(s)
    ensures var s' := OnPriceUpdate(cfg, exec, s, pu);
      && s.tape <= s'.tape && Submitted(s'.tape) == Submitted(s.tape)
      && forall k :: |s.tape| <= k < |s'.tape| ==> !IsBuy(s'.tape[k])
  {
    hide Submitted;
    TickSendsNoBuy(cfg, exec, s, pu);
    NoBuysSubmitNothing(s.tape, OnPriceUpdate(cfg, exec, s, pu).tape);
  }

  lemma TickSendsNoBuy(cfg: Config, exec: Executor, s: State, pu: PriceUpdate)
    requires Coherent(s)
    ensures var s' := OnPriceUpdate(cfg, exec, s, pu);
      s.tape <= s'.tape && forall k :: |s.tape| <= k < |s'.tape| ==> !IsBuy(s'.tape[k])
  {
    hide SellRules.TickSells, SellRules.Kept, ClosePosition, ObserveTick, Ruled;
    if pu.mint in s.positions {
      SellRules.TickSendsIff(cfg, exec, s, pu);
      hide OnPriceUpdate;
    }
  }

  // ---- Every buy of a run was admitted ----

  /** The buy was for a launch of the event: a clean one, at its price and liquidity, at its creation
      time, due within the funnel window. */
  predicate BoughtFor(cfg: Config, ev: Event, e: Entry)
    requires IsBuy(e)
  {
    && ev.LaunchEvent? && Clean(cfg, ev.launch)
    && e.order == FunnelOrder(cfg, e.order.id, ev.launch, e.order.budgetUsd) && e.cause == Funnel
  }

  ghost predicate BuyExplained(cfg: Config, steps: seq<Step>, e: Entry)
    requires IsBuy(e)
  {
    exists i :: 0 <= i < |steps| && BoughtFor(cfg, steps[i].ev, e)
  }

  ghost predicate BuysExplained(cfg: Config, steps: seq<Step>, tape: seq<Entry>) {
    forall k :: 0 <= k < |tape| && IsBuy(tape[k]) ==> BuyExplained(cfg, steps, tape[k])
  }

  lemma EventBuysForItsLaunch(cfg: Config, exec: Executor, s: State, step: Step)
    requires cfg.Valid() && Coherent(s)
    ensures var s' := OnEvent(cfg, exec, s, step);
      && s.tape <= s'.tape
      && forall k :: |s.tape| <= k < |s'.tape| && IsBuy(s'.tape[k]) ==> BoughtFor(cfg, step.ev, s'.tape[k])
  {
    hide OnLaunch, OnPriceUpdate, CloseAll, Collect, SplitIntoSlices, Affordable, Coherent, ControlsOpen, Clean;
    var handled := Handle(cfg, exec, s, step.ev);
    var s' := OnEvent(cfg, exec, s, step);
    SweepBuysNothing(cfg, exec, handled, Collect(cfg, handled.positions, step.order, step.ev.Ts()), step.ev.Ts());
    match step.ev
    case LaunchEvent(l) =>
      var w, slices := |Prune(s.controls.state.recentOrders, l.createdAt)|,
        SplitIntoSlices(Affordable(cfg, s.equity, s.deployed), cfg.funnelSlices);
      LaunchSends(cfg, exec, s, l);
      forall k | |s.tape| <= k < |s'.tape| && IsBuy(s'.tape[k]) ensures BoughtFor(cfg, step.ev, s'.tape[k]) {
        assert k < |handled.tape| && s'.tape[k] == handled.tape[k];
        assert Admitted(cfg, s, l, w);
        assert SentAt(cfg, exec, s.tape, handled.tape, s.orderSeq + 1, l, slices, w, k - |s.tape|);
      }
    case PriceEvent(pu) =>
      TickBuysNothing(cfg, exec, s, pu);
      forall k | |s.tape| <= k < |s'.tape| ensures !IsBuy(s'.tape[k]) {
        assert k < |handled.tape| ==> s'.tape[k] == handled.tape[k];
      }
  }

  /** Only clean launches are bought. Every buy on the tape of a legal run was sent for a launch event of
      that run that is no honeypot, is not held too much by its creator, and is on the curve or liquid
      and renounced; at the launch's own price, liquidity and time. */
  lemma {:induction false} EveryBuyIsForACleanLaunch(cfg: Config, exec: Executor, boot: Time, steps: seq<Step>)
    requires cfg.Valid() && LegalRun(cfg, exec, Initial(cfg, boot), steps)
    ensures BuysExplained(cfg, steps, Run(cfg, exec, Initial(cfg, boot), steps).tape)
    decreases |steps|
  {
    hide OnEvent, BoughtFor;
    if steps != [] {
      var front, last := steps[..|steps| - 1], steps[|steps| - 1];
      var s := Run(cfg, exec, Initial(cfg, boot), front);
      EveryBuyIsForACleanLaunch(cfg, exec, boot, front);
      RunIsCoherent(cfg, exec, boot, front);
      EventBuysForItsLaunch(cfg, exec, s, last);
      ExplainedGrows(cfg, steps, s.tape, OnEvent(cfg, exec, s, last).tape);
    }
  }

  lemma ExplainedGrows(cfg: Config, steps: seq<Step>, tape: seq<Entry>, tape': seq<Entry>)
    requires steps != [] && tape <= tape' && BuysExplained(cfg, steps[..|steps| - 1], tape)
    requires forall k :: |tape| <= k < |tape'| && IsBuy(tape'[k]) ==> BoughtFor(cfg, steps[|steps| - 1].ev, tape'[k])
    ensures BuysExplained(cfg, steps, tape')
  {
    hide BoughtFor;
    var front := steps[..|steps| - 1];
    forall k | 0 <= k < |tape'| && IsBuy(tape'[k]) ensures BuyExplained(cfg, steps, tape'[k]) {
      if k < |tape| {
        var e := tape[k];
        assert tape'[k] == e && BuyExplained(cfg, front, e);
        var i :| 0 <= i < |front| && BoughtFor(cfg, front[i].ev, e);
        assert BoughtFor(cfg, steps[i].ev, e);
      } else {
        assert BoughtFor(cfg, steps[|steps| - 1].ev, tape'[k]);
      }
    }
  }

  /** If every buy fills and the throttle has room for a whole funnel, an admitted launch submits exactly
      what is affordable. */
  lemma FullFunnelSpendsItsBudget(cfg: Config, exec: Executor, s: State, l: Launch)
    requires cfg.Valid() && forall o: Order :: o.BuyOrder? ==> exec(o).Filled?
    ensures var w := |Prune(s.controls.state.recentOrders, l.createdAt)|;
      Admitted(cfg, s, l, w) && w + cfg.funnelSlices <= cfg.maxTradesPerMin < 0x1_0000_0000 ==>
        Submitted(OnLaunch(cfg, exec, s, l).tape) - Submitted(s.tape) == Affordable(cfg, s.equity, s.deployed)
  {
    hide OnLaunch, SplitIntoSlices, Affordable, Submitted, Clean, ControlsOpen, Prune;
    var w, total := |Prune(s.controls.state.recentOrders, l.createdAt)|, Affordable(cfg, s.equity, s.deployed);
    var slices, s' := SplitIntoSlices(total, cfg.funnelSlices), OnLaunch(cfg, exec, s, l);
    if Admitted(cfg, s, l, w) && w + cfg.funnelSlices <= cfg.maxTradesPerMin < 0x1_0000_0000 {
      LaunchSends(cfg, exec, s, l);
      SlicesAreExact(total, cfg.funnelSlices);
      var n: nat := |s'.tape| - |s.tape|;
      RoomBelowLimit(cfg, w + n);
      assert n == |slices|;
      FunnelSubmits(cfg, exec, s.tape, s'.tape, s.orderSeq + 1, l, total, w);
    }
  }

  lemma RoomBelowLimit(cfg: Config, count: nat)
    ensures count < cfg.maxTradesPerMin < 0x1_0000_0000 ==> HasRoom(cfg, count)
  {}

  // ---- Every position came from a launch ----

  /** Every position of `s'` was in `s` with the same launchpad, or is of the launch of `ev`. */
  ghost predicate OpenedBy(s: State, s': State, ev: Event) {
    forall m :: m in s'.positions ==>
      || (m in s.positions && s'.positions[m].launchpad == s.positions[m].launchpad)
      || (ev.LaunchEvent? && ev.launch.mint == m && ev.launch.launchpad == s'.positions[m].launchpad)
  }

  lemma {:induction false} SlicesOpen(cfg: Config, exec: Executor, s: State, l: Launch, slices: seq<real>)
    requires Execution.Faithful(exec)
    ensures OpenedBy(s, SendSlices(cfg, exec, s, l, slices), LaunchEvent(l))
    decreases |slices|
  {
    hide Settle, Vwap;
    if slices != [] {
      assert Execution.FaithfulAt(exec, SliceOrder(cfg, s, l, slices[0]));
      SliceOutcome(cfg, exec, s, l, slices[0]);
      SlicesOpen(cfg, exec, TrySlice(cfg, exec, s, l, slices[0]).0, l, slices[1..]);
    }
  }

  lemma CloseOpensNone(cfg: Config, exec: Executor, s: State, x: Exit, now: Time, cause: Cause, ev: Event)
    requires x.mint in s.positions
    ensures OpenedBy(s, ClosePosition(cfg, exec, s, x, now, cause), ev)
  {
    hide ClosePosition;
    ExitOutcome(cfg, exec, s, x, now, cause);
  }

  lemma {:induction false} CloseAllOpensNone(cfg: Config, exec: Executor, s: State, exits: seq<Exit>, now: Time,
      ev: Event)
    requires Pending(cfg, s, exits, now)
    ensures OpenedBy(s, CloseAll(cfg, exec, s, exits, now), ev)
    decreases |exits|
  {
    hide ClosePosition, Expired;
    if exits != [] {
      CloseOpensNone(cfg, exec, s, exits[0], now, Sweep, ev);
      CloseKeepsPending(cfg, exec, s, exits, now);
      CloseAllOpensNone(cfg, exec, ClosePosition(cfg, exec, s, exits[0], now, Sweep), exits[1..], now, ev);
    }
  }

  lemma HandleOpens(cfg: Config, exec: Executor, s: State, ev: Event)
    requires cfg.Valid() && Execution.Faithful(exec) && Coherent(s)
    ensures OpenedBy(s, Handle(cfg, exec, s, ev), ev)
  {
    hide SendSlices, ClosePosition, Ruled, Settle, PositionBudget, SplitIntoSlices, EntryGate, EntryBlock;
    match ev
    case LaunchEvent(l) =>
      var settled := s.WithRisk(Settle(s.controls.state, l.createdAt));
      SlicesOpen(cfg, exec, settled, l, SplitIntoSlices(PositionBudget(cfg, s.equity, s.deployed), cfg.funnelSlices));
    case PriceEvent(pu) =>
      if pu.mint in s.positions {
        TickTouches(cfg, s.positions[pu.mint], pu);
        var observed := ObserveTick(cfg, s, pu);
        var (p, exit) := Ruled(cfg, s.positions[pu.mint], pu);
        if exit.Some? {
          CloseOpensNone(cfg, exec, observed, ExitAt(p, pu.priceUsd, pu.liquidityUsd, exit.value), pu.ts, OnTick, ev);
        }
      }
  }

  ghost predicate Launched(steps: seq<Step>, p: Position) {
    exists i :: 0 <= i < |steps| && LaunchOfPosition(steps[i].ev, p)
  }

  ghost predicate AllLaunched(steps: seq<Step>, s: State) {
    forall m :: m in s.positions ==> Launched(steps, s.positions[m])
  }

  predicate LaunchOfPosition(ev: Event, p: Position) {
    ev.LaunchEvent? && ev.launch.mint == p.mint && ev.launch.launchpad == p.launchpad
  }

  /** Every open position of a legal run belongs to a launch event of the run, on its launchpad. */
  lemma {:induction false} PositionsAreLaunched(cfg: Config, exec: Executor, boot: Time, steps: seq<Step>)
    requires cfg.Valid() && Execution.Faithful(exec) && LegalRun(cfg, exec, Initial(cfg, boot), steps)
    ensures AllLaunched(steps, Run(cfg, exec, Initial(cfg, boot), steps))
    decreases |steps|
  {
    hide Handle, CloseAll, Collect, LaunchOfPosition;
    if steps != [] {
      var front, last := steps[..|steps| - 1], steps[|steps| - 1];
      var s := Run(cfg, exec, Initial(cfg, boot), front);
      var handled := Handle(cfg, exec, s, last.ev);
      var exits := Collect(cfg, handled.positions, last.order, last.ev.Ts());
      PositionsAreLaunched(cfg, exec, boot, front);
      RunIsCoherent(cfg, exec, boot, front);
      RunIsCoherent(cfg, exec, boot, steps);
      HandleOpens(cfg, exec, s, last.ev);
      HandleKeepsCoherent(cfg, exec, s, last.ev);
      CollectedArePending(cfg, handled, last.order, last.ev.Ts());
      CloseAllOpensNone(cfg, exec, handled, exits, last.ev.Ts(), last.ev);
      StillLaunched(steps, s, handled, OnEvent(cfg, exec, s, last));
    }
  }

  lemma StillLaunched(steps: seq<Step>, s: State, handled: State, s': State)
    requires steps != [] && Coherent(s) && Coherent(s')
    requires AllLaunched(steps[..|steps| - 1], s)
    requires OpenedBy(s, handled, steps[|steps| - 1].ev) && OpenedBy(handled, s', steps[|steps| - 1].ev)
    ensures AllLaunched(steps, s')
  {
    var front, ev := steps[..|steps| - 1], steps[|steps| - 1].ev;
    forall m | m in s'.positions ensures Launched(steps, s'.positions[m]) {
      var p := s'.positions[m];
      if LaunchOfPosition(ev, p) {
        assert LaunchOfPosition(steps[|steps| - 1].ev, p);
      } else {
        assert Launched(front, s.positions[m]);
        var i :| 0 <= i < |front| && LaunchOfPosition(front[i].ev, s.positions[m]);
        assert LaunchOfPosition(steps[i].ev, p);
      }
    }
  }
}
