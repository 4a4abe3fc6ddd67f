/** A position is a function of its own history: closed forms for every field of every open
    position, read off the fills, ticks and failed exits since it was opened. */
module Lifetime {
  import opened Decimals
  import opened Domain
  import opened Machine
  import opened Moves
  import opened Execution

  predicate IsFill(e: Entry) { e.Traded? && e.order.BuyOrder? && e.reply.Filled? }

  predicate IsFailedSell(e: Entry) { e.Traded? && e.order.SellOrder? && e.reply.Failed? }

  /** What happened to `m` since its position was last closed. */
  function LifeOf(tape: seq<Entry>, m: Mint): seq<Entry> {
    if tape == [] then []
    else
      var e := tape[|tape| - 1];
      var before := LifeOf(tape[..|tape| - 1], m);
      match e
      case Ticked(mint, _, _, _) => if mint == m then before + [e] else before
      case Traded(order, reply, _) =>
        if order.mint != m then before
        else if order.SellOrder? && reply.Filled? then []
        else before + [e]
  }

  function Fills(life: seq<Entry>): seq<Fill> {
    if life == [] then []
    else
      var e := life[|life| - 1];
      var before := Fills(life[..|life| - 1]);
      if IsFill(e) then before + [e.reply.fill] else before
  }

  function Qty(fills: seq<Fill>): real {
    if fills == [] then 0.0 else Qty(fills[..|fills| - 1]) + fills[|fills| - 1].qty
  }

  /** Sum of price times quantity. */
  function Weighted(fills: seq<Fill>): real {
    if fills == [] then 0.0
    else Weighted(fills[..|fills| - 1]) + fills[|fills| - 1].priceUsd * fills[|fills| - 1].qty
  }

  function Cost(fills: seq<Fill>): real {
    if fills == [] then 0.0
    else Cost(fills[..|fills| - 1]) + (fills[|fills| - 1].notionalUsd + fills[|fills| - 1].feeUsd)
  }

  /** Every price seen: fills and ticks. */
  function Marks(life: seq<Entry>): seq<real> {
    if life == [] then []
    else
      var e := life[|life| - 1];
      var before := Marks(life[..|life| - 1]);
      if IsFill(e) then before + [e.reply.fill.priceUsd]
      else if e.Ticked? then before + [e.priceUsd]
      else before
  }

  /** The pool liquidity last seen, with a fill or a tick. */
  function LastDepth(life: seq<Entry>): Option<real> {
    if life == [] then None
    else
      var e := life[|life| - 1];
      if IsFill(e) then Some(e.order.liquidityUsd)
      else if e.Ticked? then Some(e.liquidityUsd)
      else LastDepth(life[..|life| - 1])
  }

  function MaxOf(xs: seq<real>): real
    requires xs != []
  {
    if |xs| == 1 then xs[0] else Max(MaxOf(xs[..|xs| - 1]), xs[|xs| - 1])
  }

  function FailedSells(life: seq<Entry>): nat {
    if life == [] then 0
    else FailedSells(life[..|life| - 1]) + if IsFailedSell(life[|life| - 1]) then 1 else 0
  }

  /** A tick that is at least the promotion threshold above the entry price. */
  predicate Breakout(cfg: Config, entryPrice: real, e: Entry) {
    e.Ticked? && GainPct(entryPrice, e.priceUsd) >= cfg.convictionMinPct
  }

  ghost predicate BrokeOut(cfg: Config, entryPrice: real, life: seq<Entry>) {
    exists i :: 0 <= i < |life| && Breakout(cfg, entryPrice, life[i])
  }

  predicate OnlyBuys(life: seq<Entry>) {
    forall i :: 0 <= i < |life| ==> life[i].Traded? && life[i].order.BuyOrder?
  }

  /** The position is what its life says. */
  ghost predicate Tells(cfg: Config, life: seq<Entry>, p: Position) {
    var fills := Fills(life);
    && fills != [] && Marks(life) != []
    && p.openedAt == fills[0].ts
    && p.qty == Qty(fills) >= 0.0
    && p.costUsd == Cost(fills)
    && p.entryPrice >= 0.0
    && p.entryPrice * p.qty == Weighted(fills)
    && p.highWater == MaxOf(Marks(life)) >= 0.0
    && p.lastPrice == Marks(life)[|Marks(life)| - 1]
    && LastDepth(life) == Some(p.lastLiquidityUsd)
    && (p.mode == Conviction <==> BrokeOut(cfg, p.entryPrice, life))
    && p.exitAttempts == FailedSells(life)
    && (p.stuck <==> p.exitAttempts >= cfg.maxExitAttempts)
  }

  /** A token is held exactly if its life has a fill, and then its position is what the life
      says; a life consists of buys only until something is bought and after each fill. */
  ghost predicate LifeOk(cfg: Config, life: seq<Entry>, held: Option<Position>) {
    && (held.Some? <==> Fills(life) != [])
    && (held.Some? ==> Tells(cfg, life, held.value))
    && (Fills(life) == [] || IsFill(life[|life| - 1]) ==> OnlyBuys(life))
  }

  function At(book: map<Mint, Position>, m: Mint): Option<Position> {
    if m in book then Some(book[m]) else None
  }

  ghost predicate LifeInv(cfg: Config, m: Mint, s: State) {
    LifeOk(cfg, LifeOf(s.tape, m), At(s.positions, m))
  }

  // ---- Extending a life by one entry ----

  lemma Extend(life: seq<Entry>, e: Entry)
    ensures Fills(life + [e]) == if IsFill(e) then Fills(life) + [e.reply.fill] else Fills(life)
    ensures Marks(life + [e]) ==
      if IsFill(e) then Marks(life) + [e.reply.fill.priceUsd]
      else if e.Ticked? then Marks(life) + [e.priceUsd] else Marks(life)
    ensures FailedSells(life + [e]) == FailedSells(life) + if IsFailedSell(e) then 1 else 0
    ensures LastDepth(life + [e]) ==
      if IsFill(e) then Some(e.order.liquidityUsd)
      else if e.Ticked? then Some(e.liquidityUsd) else LastDepth(life)
  {
    assert (life + [e])[..|life|] == life;
  }

  lemma ExtendSums(fills: seq<Fill>, f: Fill)
    ensures Qty(fills + [f]) == Qty(fills) + f.qty
    ensures Weighted(fills + [f]) == Weighted(fills) + f.priceUsd * f.qty
    ensures Cost(fills + [f]) == Cost(fills) + (f.notionalUsd + f.feeUsd)
  {
    assert (fills + [f])[..|fills|] == fills;
  }

  lemma MaxSnoc(xs: seq<real>, x: real)
    ensures MaxOf(xs + [x]) == if xs == [] then x else Max(MaxOf(xs), x)
  {
    if xs == [] {
      assert xs + [x] == [x];
    } else {
      assert (xs + [x])[..|xs|] == xs;
    }
  }

  lemma {:induction false} OnlyBuysMeansNoExits(life: seq<Entry>)
    requires OnlyBuys(life)
    ensures FailedSells(life) == 0
    ensures Fills(life) == [] ==> Marks(life) == []
    ensures Marks(life) == [] ==> Fills(life) == []
  {
    if life != [] {
      OnlyBuysMeansNoExits(life[..|life| - 1]);
    }
  }

  lemma VwapWeighs(p: Position, f: Fill)
    requires p.qty >= 0.0 && f.qty >= 0.0 && p.entryPrice >= 0.0 && f.priceUsd >= 0.0
    ensures var q := AddFill(p, f, 0.0);
      && q.entryPrice * q.qty == p.entryPrice * p.qty + f.priceUsd * f.qty
      && q.entryPrice >= 0.0
  {
    if p.qty + f.qty > 0.0 {
      MulMonotone(p.entryPrice, 0.0, p.qty);
      MulMonotone(f.priceUsd, 0.0, f.qty);
      DivMonotone(0.0, p.entryPrice * p.qty + f.priceUsd * f.qty, p.qty + f.qty);
    }
  }

  predicate Plausible(f: Fill) { f.qty >= 0.0 && f.priceUsd >= 0.0 }

  /** A fresh position with its first fill: the fill's quantity and cost, at the fill's price. */
  lemma FirstFillWeighs(f: Fill, launchpad: Launchpad, liq: real)
    requires Plausible(f)
    ensures var p, q := Opened(f, launchpad, liq), AddFill(Opened(f, launchpad, liq), f, liq);
      && q == p.(entryPrice := q.entryPrice, qty := f.qty, costUsd := f.notionalUsd + f.feeUsd)
      && q.entryPrice * q.qty == f.priceUsd * f.qty && q.entryPrice >= 0.0
  {
    hide Vwap;
    VwapWeighs(Opened(f, launchpad, liq), f);
  }

  lemma FirstFill(cfg: Config, life: seq<Entry>, e: Entry, launchpad: Launchpad, liq: real)
    requires cfg.maxExitAttempts >= 1 && OnlyBuys(life) && Fills(life) == []
    requires IsFill(e) && Plausible(e.reply.fill) && e.order.liquidityUsd == liq
    ensures Tells(cfg, life + [e], AddFill(Opened(e.reply.fill, launchpad, liq), e.reply.fill, liq))
  {
    hide AddFill, GainPct;
    var f := e.reply.fill;
    OnlyBuysMeansNoExits(life);
    Extend(life, e);
    ExtendSums([], f);
    MaxSnoc([], f.priceUsd);
    FirstFillWeighs(f, launchpad, liq);
    hide Fills, Marks, FailedSells, LastDepth;
  }

  lemma NextFill(cfg: Config, life: seq<Entry>, e: Entry, p: Position, liq: real)
    requires OnlyBuys(life) && Tells(cfg, life, p)
    requires IsFill(e) && Plausible(e.reply.fill) && e.order.liquidityUsd == liq
    ensures Tells(cfg, life + [e], AddFill(p, e.reply.fill, liq))
  {
    hide Vwap;
    var f := e.reply.fill;
    OnlyBuysMeansNoExits(life);
    Extend(life, e);
    ExtendSums(Fills(life), f);
    MaxSnoc(Marks(life), f.priceUsd);
    VwapWeighs(p, f);
    assert OnlyBuys(life + [e]);
  }

  lemma TickExtends(cfg: Config, life: seq<Entry>, p: Position, pu: PriceUpdate)
    requires Tells(cfg, life, p)
    ensures Tells(cfg, life + [Ticked(pu.mint, pu.priceUsd, pu.liquidityUsd, pu.ts)], Ruled(cfg, p, pu).0)
  {
    var e := Ticked(pu.mint, pu.priceUsd, pu.liquidityUsd, pu.ts);
    var q := Ruled(cfg, p, pu).0;
    Extend(life, e);
    MaxSnoc(Marks(life), pu.priceUsd);
    TickTouches(cfg, p, pu);
    TickPromotes(cfg, p, pu);
    BreakoutSnoc(cfg, p.entryPrice, life, e);
  }

  lemma TickPromotes(cfg: Config, p: Position, pu: PriceUpdate)
    ensures Ruled(cfg, p, pu).0.mode == Conviction <==>
      p.mode == Conviction || p.UnrealizedPnlPct(pu.priceUsd) >= cfg.convictionMinPct
  {}

  lemma BreakoutSnoc(cfg: Config, entryPrice: real, life: seq<Entry>, e: Entry)
    ensures BrokeOut(cfg, entryPrice, life + [e]) <==>
      BrokeOut(cfg, entryPrice, life) || Breakout(cfg, entryPrice, e)
  {
    hide Breakout;
    var all := life + [e];
    if i :| 0 <= i < |life| && Breakout(cfg, entryPrice, life[i]) {
      assert Breakout(cfg, entryPrice, all[i]);
    }
    if Breakout(cfg, entryPrice, e) {
      assert Breakout(cfg, entryPrice, all[|life|]);
    }
    if i :| 0 <= i < |all| && Breakout(cfg, entryPrice, all[i]) {
      assert i < |life| ==> Breakout(cfg, entryPrice, life[i]);
    }
  }

  lemma FailureExtends(cfg: Config, life: seq<Entry>, e: Entry, p: Position)
    requires Tells(cfg, life, p) && IsFailedSell(e)
    ensures Tells(cfg, life + [e], CountFailure(cfg, p))
  {
    hide Fills, Marks, FailedSells, MaxOf, Qty, Weighted, Cost, BrokeOut, LastDepth;
    Extend(life, e);
    BreakoutSnoc(cfg, p.entryPrice, life, e);
  }

  lemma FailedBuyExtends(cfg: Config, life: seq<Entry>, e: Entry, p: Position)
    requires Tells(cfg, life, p) && e.Traded? && !IsFill(e) && !IsFailedSell(e)
    ensures Tells(cfg, life + [e], p)
  {
    Extend(life, e);
    BreakoutSnoc(cfg, p.entryPrice, life, e);
  }

  // ---- The invariant ----

  lemma TapeSnoc(tape: seq<Entry>, e: Entry, m: Mint)
    ensures LifeOf(tape + [e], m) ==
      if e.Ticked? then (if e.mint == m then LifeOf(tape, m) + [e] else LifeOf(tape, m))
      else if e.order.mint != m then LifeOf(tape, m)
      else if e.order.SellOrder? && e.reply.Filled? then []
      else LifeOf(tape, m) + [e]
  {
    assert (tape + [e])[..|tape|] == tape;
  }

  /** The latest slice of a token is the latest entry of its life. */
  lemma SliceIsLast(tape: seq<Entry>, m: Mint)
    requires LastIsSliceOf(tape, m)
    ensures LifeOf(tape, m) != [] && IsFill(LifeOf(tape, m)[|LifeOf(tape, m)| - 1])
  {
    TapeSnoc(tape[..|tape| - 1], tape[|tape| - 1], m);
    assert tape == tape[..|tape| - 1] + [tape[|tape| - 1]];
  }

  lemma BuyExtends(cfg: Config, life: seq<Entry>, e: Entry, held: Option<Position>,
                   launchpad: Launchpad, liq: real)
    requires cfg.Valid() && LifeOk(cfg, life, held) && OnlyBuys(life)
    requires e.Traded? && e.order.BuyOrder? && (IsFill(e) ==> Plausible(e.reply.fill))
    requires e.order.liquidityUsd == liq
    ensures LifeOk(cfg, life + [e],
      if !IsFill(e) then held
      else if held.Some? then Some(AddFill(held.value, e.reply.fill, liq))
      else Some(AddFill(Opened(e.reply.fill, launchpad, liq), e.reply.fill, liq)))
  {
    hide AddFill, Tells;
    Extend(life, e);
    if held.Some? {
      if IsFill(e) {
        NextFill(cfg, life, e, held.value, liq);
      } else {
        FailedBuyExtends(cfg, life, e, held.value);
      }
    } else if IsFill(e) {
      FirstFill(cfg, life, e, launchpad, liq);
    }
  }

  lemma BuyKeepsLife(cfg: Config, exec: Executor, m: Mint, s: State, l: Launch, slice: real)
    requires cfg.Valid() && Faithful(exec) && LifeInv(cfg, m, s)
    requires l.mint !in s.positions || LastIsSliceOf(s.tape, l.mint)
    ensures LifeInv(cfg, m, SubmitSlice(cfg, exec, s, l, slice))
  {
    hide AddFill, Opened, Tells, SubmitSlice, SliceOrder;
    var order := SliceOrder(cfg, s, l, slice);
    SliceOrderIsBuy(cfg, s, l, slice);
    var e := Traded(order, exec(order), Funnel);
    TapeSnoc(s.tape, e, m);
    assert FaithfulAt(exec, order);
    SliceOutcome(cfg, exec, s, l, slice);
    if l.mint == m {
      if m in s.positions {
        SliceIsLast(s.tape, m);
      }
      BuyExtends(cfg, LifeOf(s.tape, m), e, At(s.positions, m), l.launchpad, l.liquidityUsd);
    }
  }

  lemma SliceOrderIsBuy(cfg: Config, s: State, l: Launch, slice: real)
    ensures SliceOrder(cfg, s, l, slice).BuyOrder? && SliceOrder(cfg, s, l, slice).mint == l.mint
    ensures SliceOrder(cfg, s, l, slice).liquidityUsd == l.liquidityUsd
  {}

  lemma TickKeepsLife(cfg: Config, m: Mint, s: State, pu: PriceUpdate)
    requires LifeInv(cfg, m, s) && pu.mint in s.positions
    ensures LifeInv(cfg, m, ObserveTick(cfg, s, pu))
  {
    hide Breakout, Tells, Ruled;
    var life := LifeOf(s.tape, m);
    var e := Ticked(pu.mint, pu.priceUsd, pu.liquidityUsd, pu.ts);
    TapeSnoc(s.tape, e, m);
    Extend(life, e);
    if pu.mint == m {
      TickExtends(cfg, life, s.positions[m], pu);
    }
  }

  lemma SellKeepsLife(cfg: Config, exec: Executor, m: Mint, s: State, x: Exit,
      now: Time, cause: Cause)
    requires LifeInv(cfg, m, s) && x.mint in s.positions
    ensures LifeInv(cfg, m, ClosePosition(cfg, exec, s, x, now, cause))
  {
    hide CountFailure, Tells, ClosePosition;
    ExitOutcome(cfg, exec, s, x, now, cause);
    var order := ExitOrder(s.orderSeq + 1, x, now);
    var e := Traded(order, exec(order), cause);
    var life := LifeOf(s.tape, m);
    TapeSnoc(s.tape, e, m);
    Extend(life, e);
    if x.mint == m && e.reply.Failed? {
      FailureExtends(cfg, life, e, s.positions[m]);
    }
  }

  lemma MoveKeepsLife(cfg: Config, exec: Executor, m: Mint, s: State, mv: Move)
    requires cfg.Valid() && Faithful(exec) && LifeInv(cfg, m, s) && Enabled(cfg, s, mv)
    ensures LifeInv(cfg, m, Apply(cfg, exec, s, mv))
  {
    hide LifeInv;
    match mv
    case Settling(now) => SettlingKeepsLife(cfg, exec, m, s, now);
    case Slicing(l, slice) => BuyKeepsLife(cfg, exec, m, s, l, slice);
    case Ticking(pu) => TickKeepsLife(cfg, m, s, pu);
    case Selling(x, now, cause) => SellKeepsLife(cfg, exec, m, s, x, now, cause);
  }

  lemma LifeIsInductive(cfg: Config, exec: Executor, m: Mint)
    requires cfg.Valid() && Faithful(exec)
    ensures Inductive(cfg, exec, (s, _) => LifeInv(cfg, m, s), false)
  {
    hide LifeInv;
    forall s: State, mv: Move | LifeInv(cfg, m, s) && Coherent(s) && Enabled(cfg, s, mv)
      ensures LifeInv(cfg, m, Apply(cfg, exec, s, mv))
    {
      MoveKeepsLife(cfg, exec, m, s, mv);
    }
  }

  lemma SettlingKeepsLife(cfg: Config, exec: Executor, m: Mint, s: State, now: Time)
    requires LifeInv(cfg, m, s)
    ensures LifeInv(cfg, m, Apply(cfg, exec, s, Settling(now)))
  {}

  /** Closed form. In every reachable state a token is held exactly if its life has a fill, and
      every field of its position is determined by that life: quantity, cost and volume-weighted
      entry by the fills, the high-water mark by all fill and tick prices, conviction mode by a
      breakout tick, and stuck by the number of failed exits. */
  lemma PositionClosedForm(cfg: Config, exec: Executor, boot: Time, steps: seq<Step>, m: Mint)
    requires cfg.Valid() && Faithful(exec) && LegalRun(cfg, exec, Initial(cfg, boot), steps)
    ensures var s := Run(cfg, exec, Initial(cfg, boot), steps);
      && (m in s.positions <==> Fills(LifeOf(s.tape, m)) != [])
      && (m in s.positions ==> Tells(cfg, LifeOf(s.tape, m), s.positions[m]))
  {
    LifeIsInductive(cfg, exec, m);
    var inv := (s: State, _: Time) => LifeInv(cfg, m, s);
    assert inv(Initial(cfg, boot), boot);
    RunKeeps(cfg, exec, inv, false, Initial(cfg, boot), boot, steps);
    assert inv(Run(cfg, exec, Initial(cfg, boot), steps), LastTs(boot, steps));
  }

  // ---- The tape records what the executor answered ----

  ghost predicate Answered(exec: Executor, tape: seq<Entry>) {
    forall e :: e in tape && e.Traded? ==> e.reply == exec(e.order)
  }

  lemma RunIsAnswered(cfg: Config, exec: Executor, boot: Time, steps: seq<Step>)
    requires cfg.Valid() && LegalRun(cfg, exec, Initial(cfg, boot), steps)
    ensures Answered(exec, Run(cfg, exec, Initial(cfg, boot), steps).tape)
  {
    forall s: State, mv: Move | Answered(exec, s.tape) && Coherent(s) && Enabled(cfg, s, mv)
      ensures Answered(exec, Apply(cfg, exec, s, mv).tape)
    {
      MoveKeepsAnswered(cfg, exec, s, mv);
    }
    var inv := (s: State, _: Time) => Answered(exec, s.tape);
    assert inv(Initial(cfg, boot), boot);
    RunKeeps(cfg, exec, inv, false, Initial(cfg, boot), boot, steps);
    assert inv(Run(cfg, exec, Initial(cfg, boot), steps), LastTs(boot, steps));
  }

  lemma EntryKeepsAnswered(exec: Executor, tape: seq<Entry>, e: Entry)
    requires Answered(exec, tape) && (e.Traded? ==> e.reply == exec(e.order))
    ensures Answered(exec, tape + [e])
  {}

  lemma MoveKeepsAnswered(cfg: Config, exec: Executor, s: State, mv: Move)
    requires Answered(exec, s.tape) && Enabled(cfg, s, mv)
    ensures Answered(exec, Apply(cfg, exec, s, mv).tape)
  {
    hide Answered, Ruled, AddFill, TradeOf, CountFailure, Risk.RecordPnl, Risk.Settle, Risk.LossLimit, Expired;
    match mv
    case Settling(_) =>
    case Slicing(l, slice) =>
      var order := SliceOrder(cfg, s, l, slice);
      EntryKeepsAnswered(exec, s.tape, Traded(order, exec(order), Funnel));
    case Ticking(pu) => EntryKeepsAnswered(exec, s.tape, Ticked(pu.mint, pu.priceUsd, pu.liquidityUsd, pu.ts));
    case Selling(x, now, cause) =>
      var order := ExitOrder(s.orderSeq + 1, x, now);
      EntryKeepsAnswered(exec, s.tape, Traded(order, exec(order), cause));
  }

  // ---- Order ids ----

  /** Orders are numbered in the order they were sent, up to the sequence counter. */
  ghost predicate Numbered(s: State) {
    && (forall i :: 0 <= i < |s.tape| && s.tape[i].Traded? ==> 1 <= s.tape[i].order.id <= s.orderSeq)
    && (forall i, j :: 0 <= i < j < |s.tape| && s.tape[i].Traded? && s.tape[j].Traded? ==>
          s.tape[i].order.id < s.tape[j].order.id)
  }

  lemma EntryKeepsNumbered(s: State, s': State, e: Entry)
    requires Numbered(s) && s'.tape == s.tape + [e]
    requires if e.Traded? then e.order.id == s'.orderSeq == s.orderSeq + 1 else s'.orderSeq == s.orderSeq
    ensures Numbered(s')
  {}

  lemma MoveKeepsNumbered(cfg: Config, exec: Executor, s: State, mv: Move)
    requires Numbered(s) && Enabled(cfg, s, mv)
    ensures Numbered(Apply(cfg, exec, s, mv))
  {
    hide Numbered, Ruled, AddFill, TradeOf, CountFailure, Risk.RecordPnl, Risk.Settle, Risk.LossLimit, Expired;
    var s' := Apply(cfg, exec, s, mv);
    match mv
    case Settling(_) => assert Numbered(s') by { SameNumbers(s, s'); }
    case Slicing(l, slice) =>
      var order := SliceOrder(cfg, s, l, slice);
      EntryKeepsNumbered(s, s', Traded(order, exec(order), Funnel));
    case Ticking(pu) => EntryKeepsNumbered(s, s', Ticked(pu.mint, pu.priceUsd, pu.liquidityUsd, pu.ts));
    case Selling(x, now, cause) =>
      var order := ExitOrder(s.orderSeq + 1, x, now);
      EntryKeepsNumbered(s, s', Traded(order, exec(order), cause));
  }

  lemma SameNumbers(s: State, s': State)
    requires Numbered(s) && s'.tape == s.tape && s'.orderSeq == s.orderSeq
    ensures Numbered(s')
  {}

  /** Order ids never repeat: on every reachable tape they strictly increase, and none exceeds the
      sequence counter, which every snapshot carries. An executor that answers by order can therefore
      answer every order of a run differently. */
  lemma OrderIdsNeverRepeat(cfg: Config, exec: Executor, boot: Time, steps: seq<Step>)
    requires cfg.Valid() && LegalRun(cfg, exec, Initial(cfg, boot), steps)
    ensures Numbered(Run(cfg, exec, Initial(cfg, boot), steps))
  {
    hide Numbered;
    forall s: State, mv: Move | Numbered(s) && Coherent(s) && Enabled(cfg, s, mv)
      ensures Numbered(Apply(cfg, exec, s, mv))
    {
      MoveKeepsNumbered(cfg, exec, s, mv);
    }
    var inv := (s: State, _: Time) => Numbered(s);
    assert inv(Initial(cfg, boot), boot) by { NothingNumbered(cfg, boot); }
    RunKeeps(cfg, exec, inv, false, Initial(cfg, boot), boot, steps);
    assert inv(Run(cfg, exec, Initial(cfg, boot), steps), LastTs(boot, steps));
  }

  lemma NothingNumbered(cfg: Config, boot: Time)
    ensures Numbered(Initial(cfg, boot))
  {}

  lemma {:induction false} LifeIsOnTape(tape: seq<Entry>, m: Mint)
    ensures forall e :: e in LifeOf(tape, m) ==> e in tape && (e.Traded? ==> e.order.mint == m)
  {
    if tape != [] {
      LifeIsOnTape(tape[..|tape| - 1], m);
    }
  }

  /** The slice orders that filled in a life, in step with `Fills`. */
  function FilledOrders(life: seq<Entry>): (orders: seq<Order>)
    ensures |orders| == |Fills(life)|
  {
    if life == [] then []
    else
      var e := life[|life| - 1];
      var before := FilledOrders(life[..|life| - 1]);
      if IsFill(e) then before + [e.order] else before
  }

  lemma {:induction false} FillsAnswerOrders(exec: Executor, life: seq<Entry>)
    requires Answered(exec, life)
    ensures forall i :: 0 <= i < |Fills(life)| ==>
      && FilledOrders(life)[i].BuyOrder?
      && exec(FilledOrders(life)[i]) == Filled(Fills(life)[i])
  {
    if life != [] {
      FillsAnswerOrders(exec, life[..|life| - 1]);
    }
  }

  lemma {:induction false} SubstantialSums(fills: seq<Fill>)
    requires forall f :: f in fills ==> Substantial(f)
    ensures fills != [] ==> Qty(fills) > 0.0 && Cost(fills) > 0.0 && Weighted(fills) > 0.0
  {
    if fills != [] {
      var front, last := fills[..|fills| - 1], fills[|fills| - 1];
      SubstantialSums(front);
      assert Substantial(last);
      MulPositive(last.priceUsd, last.qty);
    }
  }

  /** Every buy fill of a run was worth recording. */
  ghost predicate FillsAreSubstantial(tape: seq<Entry>) {
    forall e :: e in tape && IsFill(e) ==> Substantial(e.reply.fill)
  }

  lemma {:induction false} FillsAreEntries(life: seq<Entry>)
    ensures forall f :: f in Fills(life) ==> exists e :: e in life && IsFill(e) && e.reply.fill == f
  {
    if life != [] {
      FillsAreEntries(life[..|life| - 1]);
    }
  }

  /** If every buy fill of a run was worth recording, every open position holds something, cost
      something, and has a positive entry price. */
  lemma PositionsAreSubstantial(cfg: Config, exec: Executor, boot: Time,
      steps: seq<Step>, m: Mint)
    requires cfg.Valid() && Faithful(exec) && LegalRun(cfg, exec, Initial(cfg, boot), steps)
    ensures var s := Run(cfg, exec, Initial(cfg, boot), steps);
      FillsAreSubstantial(s.tape) && m in s.positions ==>
        s.positions[m].qty > 0.0 && s.positions[m].costUsd > 0.0 && s.positions[m].entryPrice > 0.0
  {
    hide Run, LegalRun, Breakout;
    PositionClosedForm(cfg, exec, boot, steps, m);
    var tape := Run(cfg, exec, Initial(cfg, boot), steps).tape;
    var life := LifeOf(tape, m);
    LifeIsOnTape(tape, m);
    FillsAreEntries(life);
    if FillsAreSubstantial(tape) {
      SubstantialSums(Fills(life));
    }
  }
}
