/** Risk controls: kill switch, daily-loss breaker, order throttle and position cap.

    The functions say what every control does to the control state; `RiskEngine` is the object
    the engine mutates, proved to do exactly that. */
module Risk {
  import opened Domain

  datatype BlockReason =
    | KillSwitch
    | DailyLossLimit(pnl: real, limit: real, equity: real)
    | OpenPositionCap(open: nat, max: nat)
    | Throttled(count: nat, limitPerMin: nat)

  /** Breaker and throttle state, as stored in a crash-safe snapshot. */
  datatype RiskState = RiskState(
    dayRealizedPnl: real,
    day: int,
    dailyLossTripped: bool,
    kill: bool,
    recentOrders: seq<Time>)

  /** The whole control state: the snapshot part and the open-position count. */
  datatype Controls = Controls(state: RiskState, openPositions: nat)

  const WINDOW_SECS: int := 60

  /** The width of an order count, which the original truncates to 32 bits. */
  const U32_VALUES: int := 0x1_0000_0000

  function NewState(cfg: Config, boot: Time): RiskState {
    RiskState(0.0, DayOf(boot), false, cfg.killSwitch, [])
  }

  /** Today's loss limit, a (usually negative) P&L measured against the starting equity. */
  function LossLimit(cfg: Config): real {
    -cfg.equityUsd * cfg.dailyLossLimitPct / 100.0
  }

  function Rollover(r: RiskState, now: Time): RiskState {
    if DayOf(now) != r.day
    then r.(day := DayOf(now), dayRealizedPnl := 0.0, dailyLossTripped := false)
    else r
  }

  /** Order times without the leading ones at least a minute old. */
  function Prune(orders: seq<Time>, now: Time): seq<Time> {
    if orders != [] && NumSeconds(now - orders[0]) >= WINDOW_SECS
    then Prune(orders[1..], now)
    else orders
  }

  /** Day rollover and pruning, with which every check starts. */
  function Settle(r: RiskState, now: Time): RiskState {
    var r' := Rollover(r, now);
    r'.(recentOrders := Prune(r'.recentOrders, now))
  }

  function RecordPnl(cfg: Config, r: RiskState, pnlUsd: real, now: Time): RiskState {
    var r' := Rollover(r, now);
    var pnl := r'.dayRealizedPnl + pnlUsd;
    r'.(dayRealizedPnl := pnl, dailyLossTripped := r'.dailyLossTripped || pnl <= LossLimit(cfg))
  }

  function OrderCount(orders: seq<Time>): nat { |orders| % U32_VALUES }

  function ThrottleBlock(cfg: Config, r: RiskState): Option<BlockReason> {
    if OrderCount(r.recentOrders) >= cfg.maxTradesPerMin
    then Some(Throttled(OrderCount(r.recentOrders), cfg.maxTradesPerMin))
    else None
  }

  /** Why a settled control state refuses a new position, if it does. */
  function EntryBlock(cfg: Config, c: Controls): Option<BlockReason> {
    if c.state.dailyLossTripped || c.state.dayRealizedPnl <= LossLimit(cfg) then
      Some(DailyLossLimit(c.state.dayRealizedPnl, cfg.dailyLossLimitPct, cfg.equityUsd))
    else if c.state.kill then
      Some(KillSwitch)
    else if c.openPositions >= cfg.maxOpenPositions then
      Some(OpenPositionCap(c.openPositions, cfg.maxOpenPositions))
    else
      ThrottleBlock(cfg, c.state)
  }

  function PushOrder(r: RiskState, now: Time): RiskState {
    r.(recentOrders := r.recentOrders + [now])
  }

  /** A snapshot restored over a fresh state: the manual kill flag is or-ed, never cleared. */
  function RestoreOver(booted: RiskState, snap: RiskState): RiskState {
    snap.(kill := booted.kill || snap.kill)
  }

  class RiskEngine {
    const cfg: Config
    var dayRealizedPnl: real
    var day: int
    var dailyLossTripped: bool
    var recentOrders: seq<Time>
    var openPositions: nat
    var kill: bool

    function State(): RiskState
      reads this
    {
      RiskState(dayRealizedPnl, day, dailyLossTripped, kill, recentOrders)
    }

    function View(): Controls
      reads this
    {
      Controls(State(), openPositions)
    }

    constructor (cfg: Config, boot: Time)
      ensures this.cfg == cfg
      ensures View() == Controls(NewState(cfg, boot), 0)
    {
      this.cfg := cfg;
      dayRealizedPnl, day, dailyLossTripped := 0.0, DayOf(boot), false;
      recentOrders, openPositions, kill := [], 0, cfg.killSwitch;
    }

    method EngageKillSwitch()
      modifies this
      ensures View() == old(View()).(state := old(State()).(kill := true))
    {
      kill := true;
    }

    method ReleaseKillSwitch()
      modifies this
      ensures View() == old(View()).(state := old(State()).(kill := false))
    {
      kill := false;
    }

    method MaybeRollover(now: Time)
      modifies this
      ensures View() == old(View()).(state := Rollover(old(State()), now))
    {
      var d := DayOf(now);
      if d != day {
        day := d;
        dayRealizedPnl := 0.0;
        dailyLossTripped := false;
      }
    }

    method RecordRealizedPnl(pnlUsd: real, now: Time)
      modifies this
      ensures View() == old(View()).(state := RecordPnl(cfg, old(State()), pnlUsd, now))
    {
      MaybeRollover(now);
      dayRealizedPnl := dayRealizedPnl + pnlUsd;
      if dayRealizedPnl <= LossLimit(cfg) && !dailyLossTripped {
        dailyLossTripped := true;
      }
    }

    method SetOpenPositions(open: nat)
      modifies this
      ensures View() == old(View()).(openPositions := open)
    {
      openPositions := open;
    }

    method PruneOrders(now: Time)
      modifies this
      ensures View() == old(View()).(state := old(State()).(recentOrders := Prune(old(recentOrders), now)))
    {
      while recentOrders != [] && NumSeconds(now - recentOrders[0]) >= WINDOW_SECS
        invariant Prune(recentOrders, now) == Prune(old(recentOrders), now)
        invariant View() == old(View()).(state := old(State()).(recentOrders := recentOrders))
        decreases |recentOrders|
      {
        recentOrders := recentOrders[1..];
      }
    }

    /** May a new position be opened now? */
    method CheckEntry(now: Time) returns (block: Option<BlockReason>)
      modifies this
      ensures View() == old(View()).(state := Settle(old(State()), now))
      ensures block == EntryBlock(cfg, View())
    {
      MaybeRollover(now);
      PruneOrders(now);
      if dailyLossTripped || dayRealizedPnl <= LossLimit(cfg) {
        return Some(DailyLossLimit(dayRealizedPnl, cfg.dailyLossLimitPct, cfg.equityUsd));
      }
      if kill {
        return Some(BlockReason.KillSwitch);
      }
      if openPositions >= cfg.maxOpenPositions {
        return Some(OpenPositionCap(openPositions, cfg.maxOpenPositions));
      }
      if OrderCount(recentOrders) >= cfg.maxTradesPerMin {
        return Some(Throttled(OrderCount(recentOrders), cfg.maxTradesPerMin));
      }
      return None;
    }

    /** May an entry order be sent now? If so it is counted. */
    method CheckOrder(now: Time) returns (block: Option<BlockReason>)
      modifies this
      ensures var settled := Settle(old(State()), now);
        && block == ThrottleBlock(cfg, settled)
        && View() == old(View()).(state := if block.Some? then settled else PushOrder(settled, now))
    {
      MaybeRollover(now);
      PruneOrders(now);
      if OrderCount(recentOrders) >= cfg.maxTradesPerMin {
        return Some(Throttled(OrderCount(recentOrders), cfg.maxTradesPerMin));
      }
      recentOrders := recentOrders + [now];
      return None;
    }

    /** Sells are never refused; they only count toward the throttle window. */
    method NoteSide(side: Side, now: Time)
      modifies this
      ensures View() == old(View()).(
        state := if side == SellSide then PushOrder(old(State()), now) else old(State()))
    {
      if side == SellSide {
        recentOrders := recentOrders + [now];
      }
    }

    method RestoreState(snap: RiskState)
      modifies this
      ensures View() == old(View()).(state := RestoreOver(old(State()), snap))
    {
      dayRealizedPnl, day, dailyLossTripped := snap.dayRealizedPnl, snap.day, snap.dailyLossTripped;
      kill := kill || snap.kill;
      recentOrders := snap.recentOrders;
    }
  }
}
