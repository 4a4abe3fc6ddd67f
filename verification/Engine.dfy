/** The engine object: its methods mutate the book and the ledger in place, and each is proved
    to make exactly the transition the state machine prescribes. */
module Engine {
  import opened Domain
  import opened Risk
  import opened Machine
  import opened Ledger
  import opened Persist
  import Moves
  import Ordering
  import Strategy

  class Engine {
    const cfg: Config
    const exec: Executor
    const risk: RiskEngine
    /** Realized equity: starting equity plus closed P&L. */
    var equity: real
    /** USD locked in open positions, fees included. */
    var deployedUsd: real
    var positions: map<Mint, Position>
    var closed: seq<ClosedTrade>
    var orderSeq: nat
    ghost var tape: seq<Entry>

    /** The configuration is validated and shared with the controls. */
    ghost predicate Wired()
    {
      cfg.Valid() && risk.cfg == cfg
    }

    ghost predicate Valid()
      reads this, risk
    {
      Wired() && Moves.Coherent(View())
    }

    ghost function View(): State
      reads this, risk
    {
      State(equity, deployedUsd, positions, closed, orderSeq, risk.View(), tape)
    }

    constructor (cfg: Config, exec: Executor, boot: Time)
      requires cfg.Valid()
      ensures Valid() && fresh(risk)
      ensures this.cfg == cfg && this.exec == exec
      ensures View() == Initial(cfg, boot)
    {
      this.cfg, this.exec := cfg, exec;
      risk := new RiskEngine(cfg, boot);
      equity, deployedUsd := cfg.equityUsd, 0.0;
      positions, closed, orderSeq, tape := map[], [], 0, [];
    }

    /** Handle one event, then sweep the time stops. `order` is the order in which the sweep met
        the open positions, which nothing prescribes. */
    method OnEvent(ev: Event) returns (ghost order: seq<Mint>)
      requires Valid()
      modifies this, risk
      ensures Valid()
      ensures Legal(cfg, exec, old(View()), Step(ev, order))
      ensures View() == Machine.OnEvent(cfg, exec, old(View()), Step(ev, order))
    {
      ghost var before := View();
      match ev {
        case LaunchEvent(l) => OnLaunch(l);
        case PriceEvent(pu) => OnPriceUpdate(pu);
      }
      Moves.HandleKeepsCoherent(cfg, exec, before, ev);
      ghost var handled := View();
      order := SweepTimeStops(ev.Ts());
      Moves.SweepKeepsCoherent(cfg, exec, handled, order, ev.Ts());
    }

    method OnLaunch(l: Launch)
      requires Wired()
      modifies this, risk
      ensures View() == Machine.OnLaunch(cfg, exec, old(View()), l)
    {
      var now := l.createdAt;
      if l.mint in positions {
        return;
      }
      if Strategy.EntryGate(cfg, l, now).Some? {
        return;
      }
      var block := risk.CheckEntry(now);
      if block.Some? {
        return;
      }
      var budget := Strategy.PositionBudget(cfg, equity, deployedUsd);
      if budget <= 0.0 {
        return;
      }
      var deadline := now + cfg.funnelWindowSecs * SECOND;
      var slices := Strategy.SplitIntoSlices(budget, cfg.funnelSlices);
      SendFunnel(l, slices, deadline);
    }

    /** Send the slices back to back until one does not fill. */
    method SendFunnel(l: Launch, slices: seq<real>, deadline: Time)
      requires Wired() && deadline == Deadline(cfg, l.createdAt)
      modifies this, risk
      ensures View() == SendSlices(cfg, exec, old(View()), l, slices)
    {
      var i := 0;
      while i < |slices|
        invariant 0 <= i <= |slices|
        invariant SendSlices(cfg, exec, View(), l, slices[i..]) ==
                  SendSlices(cfg, exec, old(View()), l, slices)
      {
        assert slices[i..][0] == slices[i] && slices[i..][1..] == slices[i + 1..];
        var more := SendSlice(l, slices[i], deadline);
        if !more {
          return;
        }
        i := i + 1;
      }
    }

    /** Send one slice unless it is late or the throttle refuses it, and book it if it fills. */
    method SendSlice(l: Launch, slice: real, deadline: Time) returns (more: bool)
      requires Wired() && deadline == Deadline(cfg, l.createdAt)
      modifies this, risk
      ensures (View(), more) == TrySlice(cfg, exec, old(View()), l, slice)
    {
      var now := l.createdAt;
      if now > deadline {
        return false;
      }
      var block := risk.CheckOrder(now);
      if block.Some? {
        return false;
      }
      var id := NextOrderId();
      var order := BuyOrder(id, l.mint, slice, l.priceUsd, l.liquidityUsd, now, deadline);
      var reply := exec(order);
      tape := tape + [Traded(order, reply, Funnel)];
      if reply.Failed? {
        return false;
      }
      ApplyBuyFill(reply.fill, l.launchpad, l.liquidityUsd);
      return true;
    }

    method NextOrderId() returns (id: nat)
      modifies this`orderSeq
      ensures id == orderSeq == old(orderSeq) + 1
    {
      orderSeq := orderSeq + 1;
      id := orderSeq;
    }

    /** Accumulate a slice fill into the position of its token. */
    method ApplyBuyFill(f: Fill, launchpad: Launchpad, liquidityUsd: real)
      requires Wired()
      modifies this, risk
      ensures View() == Machine.ApplyBuyFill(old(View()), f, launchpad, liquidityUsd)
    {
      hide AddFill;
      var cost := f.notionalUsd + f.feeUsd;
      var pos := if f.mint in positions then positions[f.mint] else
        Position(f.mint, launchpad, f.ts, f.priceUsd, 0.0, 0.0, f.priceUsd, f.priceUsd,
                 liquidityUsd, Flip, 0, false);
      pos := Merge(pos, f, liquidityUsd);
      positions := positions[f.mint := pos];
      deployedUsd := deployedUsd + cost;
      risk.SetOpenPositions(|positions|);
    }

    /** A position with one more slice fill. */
    static method Merge(p: Position, f: Fill, liquidityUsd: real) returns (pos: Position)
      ensures pos == AddFill(p, f, liquidityUsd)
    {
      hide Vwap;
      pos := p;
      var newQty := pos.qty + f.qty;
      if newQty > 0.0 {
        pos := pos.(entryPrice := Vwap(pos, f));
      }
      pos := pos.(qty := newQty, costUsd := pos.costUsd + (f.notionalUsd + f.feeUsd), lastPrice := f.priceUsd,
                  lastLiquidityUsd := liquidityUsd);
      if f.priceUsd > pos.highWater {
        pos := pos.(highWater := f.priceUsd);
      }
    }

    /** Flatten positions whose time stop has elapsed: collect them all, then sell one by one. */
    method SweepTimeStops(now: Time) returns (ghost order: seq<Mint>)
      requires Valid()
      modifies this, risk
      ensures Enumerates(order, old(positions).Keys)
      ensures View() == Machine.SweepTimeStops(cfg, exec, old(View()), order, now)
    {
      hide ListsExpired, Expired, Collect, Machine.ClosePosition;
      var exits;
      exits, order := CollectExits(now);
      Moves.CollectedArePending(cfg, View(), order, now);
      var i := 0;
      while i < |exits|
        invariant 0 <= i <= |exits|
        invariant Moves.Pending(cfg, View(), exits[i..], now)
        invariant CloseAll(cfg, exec, View(), exits[i..], now) ==
                  CloseAll(cfg, exec, old(View()), exits, now)
      {
        assert exits[i..][0] == exits[i] && exits[i..][1..] == exits[i + 1..];
        Moves.CloseKeepsPending(cfg, exec, View(), exits[i..], now);
        ClosePosition(exits[i], now, Sweep);
        i := i + 1;
      }
    }

    /** The exits of all expired positions, met in an arbitrary order. */
    method CollectExits(now: Time) returns (exits: seq<Exit>, ghost order: seq<Mint>)
      ensures Enumerates(order, positions.Keys)
      ensures exits == Collect(cfg, positions, order, now)
      ensures ListsExpired(cfg, positions, exits, now)
    {
      hide ListsExpired, Strategy.OnTime;
      exits, order := [], [];
      var rest := positions.Keys;
      while rest != {}
        invariant rest <= positions.Keys
        invariant Enumerates(order, positions.Keys - rest)
        invariant exits == Collect(cfg, positions, order, now)
        decreases rest
      {
        var m :| m in rest;
        rest := rest - {m};
        assert (order + [m])[..|order|] == order;
        order := order + [m];
        var pos := positions[m];
        if !pos.stuck {
          var due := Strategy.OnTime(cfg, pos, now);
          if due.Some? {
            exits := exits + [Exit(pos.mint, pos.qty, pos.costUsd, pos.mode, pos.entryPrice,
                                   pos.lastPrice, pos.lastLiquidityUsd, due.value)];
          }
        }
      }
      CollectListsExpired(cfg, positions, order, now);
    }

    /** A price tick: mark the position, apply the exit rules, sell if one fires. */
    method OnPriceUpdate(pu: PriceUpdate)
      requires Valid()
      modifies this, risk
      ensures View() == Machine.OnPriceUpdate(cfg, exec, old(View()), pu)
    {
      if pu.mint !in positions {
        return;
      }
      var pos := positions[pu.mint].(lastPrice := pu.priceUsd, lastLiquidityUsd := pu.liquidityUsd);
      var (ruled, exit) := Strategy.OnPrice(cfg, pos, pu.priceUsd, pu.ts);
      positions := positions[pu.mint := ruled];
      tape := tape + [Ticked(pu.mint, pu.priceUsd, pu.liquidityUsd, pu.ts)];
      if exit.Some? {
        ClosePosition(Exit(ruled.mint, ruled.qty, ruled.costUsd, ruled.mode, ruled.entryPrice,
                           pu.priceUsd, pu.liquidityUsd, exit.value), pu.ts, OnTick);
      }
    }

    /** Flatten a position. No control can refuse a sell. */
    method ClosePosition(x: Exit, now: Time, ghost cause: Cause)
      requires Wired() && x.mint in positions
      modifies this, risk
      ensures View() == Machine.ClosePosition(cfg, exec, old(View()), x, now, cause)
    {
      hide SettleSale, FailExit;
      risk.NoteSide(SellSide, now);
      var id := NextOrderId();
      var tier := match x.mode case Flip => FlipExit case Conviction => ConvictionExit;
      var order := SellOrder(id, x.mint, x.qty, x.refPrice, x.liquidityUsd, now, tier);
      var reply := exec(order);
      tape := tape + [Traded(order, reply, cause)];
      match reply {
        case Failed(_) => CountFailedExit(x.mint);
        case Filled(f) => BookSale(x, f, now);
      }
    }

    method CountFailedExit(m: Mint)
      requires Wired() && m in positions
      modifies this`positions
      ensures View() == FailExit(cfg, old(View()), m)
    {
      var pos := positions[m];
      pos := pos.(exitAttempts := pos.exitAttempts + 1);
      var newly := !pos.stuck && pos.exitAttempts >= cfg.maxExitAttempts;
      if newly {
        pos := pos.(stuck := true);
      }
      positions := positions[m := pos];
    }

    method BookSale(x: Exit, f: Fill, now: Time)
      requires Wired()
      modifies this, risk
      ensures View() == SettleSale(cfg, old(View()), x, f, now)
    {
      var trade := TradeOf(x, f, now);
      equity := equity + trade.pnlUsd;
      deployedUsd := deployedUsd - x.cost;
      risk.RecordRealizedPnl(trade.pnlUsd, now);
      positions := positions - {x.mint};
      risk.SetOpenPositions(|positions|);
      closed := closed + [trade];
    }

    /** The open mints in a fixed order. */
    method OpenMints() returns (mints: seq<Mint>)
      requires Valid()
      ensures Enumerates(mints, positions.Keys)
      ensures Ordering.Increasing(mints)
    {
      var rest := positions.Keys;
      mints := [];
      while rest != {}
        invariant rest <= positions.Keys
        invariant Enumerates(mints, positions.Keys - rest)
        decreases rest
      {
        var m :| m in rest;
        rest := rest - {m};
        mints := mints + [m];
      }
      Ordering.SortedKeysStrict(mints);
      mints := Ordering.Sorted(mints);
      Ordering.IncreasingDistinct(mints);
    }

    /** The full resumable state. */
    method CaptureState() returns (snap: EngineState)
      requires Valid()
      ensures SnapshotOf(View(), snap)
    {
      var mints := OpenMints();
      var listed := [];
      for i := 0 to |mints|
        invariant |listed| == i
        invariant forall j :: 0 <= j < i ==> listed[j] == positions[mints[j]]
      {
        listed := listed + [positions[mints[i]]];
      }
      assert MintsOf(listed) == mints;
      snap := EngineState(VERSION, equity, deployedUsd, listed, closed, orderSeq, risk.State());
    }

    method ClosedPnl() returns (pnl: real)
      ensures pnl == SumPnl(closed)
    {
      pnl := 0.0;
      for i := 0 to |closed|
        invariant pnl == SumPnl(closed[..i])
      {
        assert closed[..i + 1][..i] == closed[..i];
        pnl := pnl + closed[i].pnlUsd;
      }
      assert closed[..|closed|] == closed;
    }

    method OpenCost() returns (cost: real)
      ensures cost == SumCost(positions)
    {
      cost := 0.0;
      var rest := positions;
      while rest != map[]
        invariant cost + SumCost(rest) == SumCost(positions)
        decreases |rest|
      {
        var m :| m in rest;
        SumCostSplit(rest, m);
        cost, rest := cost + rest[m].costUsd, rest - {m};
      }
    }

    method EmptyPositions() returns (r: Option<Position>)
      ensures r.None? ==> forall m :: m in positions ==> Holds(positions[m])
      ensures r.Some? ==> r.value in positions.Values && !Holds(r.value)
    {
      var unseen := positions.Keys;
      while unseen != {}
        invariant unseen <= positions.Keys
        invariant forall m :: m in positions && m !in unseen ==> Holds(positions[m])
        decreases unseen
      {
        var m :| m in unseen;
        unseen := unseen - {m};
        if positions[m].qty <= 0.0 || positions[m].costUsd <= 0.0 {
          return Some(positions[m]);
        }
      }
      return None;
    }

    method MismatchedTrades() returns (r: Option<ClosedTrade>)
      ensures r.None? ==> forall t :: t in closed ==> TradeAddsUp(t)
      ensures r.Some? ==> r.value in closed && !TradeAddsUp(r.value)
    {
      for i := 0 to |closed|
        invariant forall j :: 0 <= j < i ==> TradeAddsUp(closed[j])
      {
        if closed[i].pnlUsd != closed[i].proceedsUsd - closed[i].costUsd {
          return Some(closed[i]);
        }
      }
      return None;
    }

    /** The money invariants of the book, checked in order; the error says which one fails. */
    method CheckInvariants() returns (r: Result<(), AuditError>)
      ensures r.Ok? <==> Sound(cfg, View())
      ensures r.Err? ==> Offends(cfg, View(), r.error)
    {
      var closedPnl := ClosedPnl();
      if equity != cfg.equityUsd + closedPnl {
        return Err(EquityMismatch(equity, cfg.equityUsd + closedPnl));
      }
      var openCost := OpenCost();
      if deployedUsd != openCost {
        return Err(DeployedMismatch(deployedUsd, openCost));
      }
      var empty := EmptyPositions();
      if empty.Some? {
        return Err(EmptyPosition(empty.value));
      }
      var mismatched := MismatchedTrades();
      if mismatched.Some? {
        return Err(TradeMismatch(mismatched.value));
      }
      return Ok(());
    }

    /** The book of a list of positions, filed by mint. */
    static method FileBook(listed: seq<Position>) returns (book: map<Mint, Position>)
      ensures book == BookOf(listed)
    {
      book := map[];
      for i := 0 to |listed|
        invariant book == BookOf(listed[..i])
      {
        assert listed[..i + 1][..i] == listed[..i];
        book := book[listed[i].mint := listed[i]];
      }
      assert listed[..|listed|] == listed;
    }

    /** Rebuild an engine from a snapshot, refusing one whose book fails the money invariants. */
    static method Restore(cfg: Config, exec: Executor, boot: Time, snap: EngineState, ghost history: seq<Entry>)
      returns (r: Result<Engine, AuditError>)
      requires cfg.Valid()
      ensures r.Ok? <==> Sound(cfg, Resumed(cfg, boot, snap, history))
      ensures r.Ok? ==>
        && fresh(r.value) && fresh(r.value.risk) && r.value.Valid()
        && r.value.cfg == cfg && r.value.exec == exec
        && r.value.View() == Resumed(cfg, boot, snap, history)
      ensures r.Err? ==> Offends(cfg, Resumed(cfg, boot, snap, history), r.error)
    {
      hide Sound, Offends, BookOf;
      var eng := new Engine(cfg, exec, boot);
      eng.equity, eng.deployedUsd := snap.equityUsd, snap.deployedUsd;
      eng.positions := FileBook(snap.positions);
      eng.closed, eng.orderSeq := snap.closed, snap.orderSeq;
      eng.tape := history;
      eng.risk.RestoreState(snap.risk);
      eng.risk.SetOpenPositions(|eng.positions|);
      BookIsFiled(snap.positions);
      var check := eng.CheckInvariants();
      match check
      case Ok(_) => return Ok(eng);
      case Err(e) => return Err(e);
    }
  }
}
