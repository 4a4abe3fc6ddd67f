/** The entry throttle as a sliding-window bound over whole runs. */
module Throttle {
  import opened Domain
  import opened Risk
  import opened Machine
  import opened Moves

  /** A minute. */
  const WINDOW: int := 60_000_000_000

  /** Buys submitted, filled or not, in the window `(u - 60s, u]`. */
  function BuysIn(tape: seq<Entry>, u: Time): nat {
    if tape == [] then 0
    else
      var e := tape[|tape| - 1];
      BuysIn(tape[..|tape| - 1], u) + if IsBuy(e) && u - WINDOW < e.order.now <= u then 1 else 0
  }

  /** Orders of either side submitted in the window `(u - 60s, u]`. */
  function OrdersIn(tape: seq<Entry>, u: Time): nat {
    if tape == [] then 0
    else
      var e := tape[|tape| - 1];
      OrdersIn(tape[..|tape| - 1], u) + if e.Traded? && u - WINDOW < e.order.now <= u then 1 else 0
  }

  /** Orders of either side submitted less than a minute before `v`. */
  function FreshOrders(tape: seq<Entry>, v: Time): nat {
    if tape == [] then 0
    else
      var e := tape[|tape| - 1];
      FreshOrders(tape[..|tape| - 1], v) + if e.Traded? && v - WINDOW < e.order.now then 1 else 0
  }

  /** Remembered order times less than a minute before `v`. */
  function FreshTimes(times: seq<Time>, v: Time): nat {
    if times == [] then 0 else FreshTimes(times[1..], v) + if v - WINDOW < times[0] then 1 else 0
  }

  lemma {:induction false} FreshTimesSnoc(times: seq<Time>, t: Time, v: Time)
    ensures FreshTimes(times + [t], v) == FreshTimes(times, v) + if v - WINDOW < t then 1 else 0
  {
    if times != [] {
      assert (times + [t])[1..] == times[1..] + [t];
      FreshTimesSnoc(times[1..], t, v);
    } else {
      assert ([t])[1..] == [];
    }
  }

  /** Order times as they were recorded: none goes back, and none is after `t`. */
  ghost predicate Recorded(times: seq<Time>, t: Time) {
    && (forall i, j :: 0 <= i < j < |times| ==> times[i] <= times[j])
    && (forall i :: 0 <= i < |times| ==> times[i] <= t)
  }

  /** Pruning keeps the orders of the last minute, all of them and no others. */
  lemma {:induction false} PruneKeepsFresh(times: seq<Time>, now: Time)
    requires Recorded(times, now)
    ensures Recorded(Prune(times, now), now)
    ensures |Prune(times, now)| == FreshTimes(times, now)
    ensures forall v :: now <= v ==> FreshTimes(Prune(times, now), v) == FreshTimes(times, v)
  {
    if times != [] {
      if NumSeconds(now - times[0]) >= WINDOW_SECS {
        PruneKeepsFresh(times[1..], now);
      } else {
        AllFresh(times, now);
      }
    }
  }

  lemma {:induction false} AllFresh(times: seq<Time>, now: Time)
    requires forall i :: 0 <= i < |times| ==> now - WINDOW < times[i]
    ensures FreshTimes(times, now) == |times|
  {
    if times != [] {
      AllFresh(times[1..], now);
    }
  }

  lemma {:induction false} BuysAreFresh(tape: seq<Entry>, u: Time)
    ensures BuysIn(tape, u) <= FreshOrders(tape, u)
  {
    if tape != [] {
      BuysAreFresh(tape[..|tape| - 1], u);
    }
  }

  /** As time passes, fewer orders count. */
  lemma {:induction false} FreshTimesFade(times: seq<Time>, now: Time, u: Time)
    requires now <= u
    ensures FreshTimes(times, u) <= FreshTimes(times, now)
  {
    if times != [] {
      FreshTimesFade(times[1..], now, u);
    }
  }

  ghost predicate SentBy(tape: seq<Entry>, t: Time) {
    forall i :: 0 <= i < |tape| && tape[i].Traded? ==> tape[i].order.now <= t
  }

  lemma {:induction false} PastOrdersAreIn(tape: seq<Entry>, now: Time, u: Time)
    requires SentBy(tape, now) && now <= u
    ensures FreshOrders(tape, u) == OrdersIn(tape, u)
  {
    if tape != [] {
      PastOrdersAreIn(tape[..|tape| - 1], now, u);
    }
  }

  /** The 32-bit order count does not wrap at any decision to buy: fewer than 2^32 orders were
      submitted in the minute before each buy. */
  ghost predicate CountsFit(tape: seq<Entry>) {
    forall k :: 0 <= k < |tape| && IsBuy(tape[k]) ==> FreshOrders(tape[..k], tape[k].order.now) < U32_VALUES
  }

  /** The orders that still count are the ones remembered, and those the engine forgot when it was
      restored from an older snapshot (`lost`, a part of the tape); and no window is overfull by more
      than the lost orders in it. */
  ghost predicate ThrottledBut(cfg: Config, s: State, t: Time, lost: seq<Entry>) {
    var times := s.controls.state.recentOrders;
    && SentBy(s.tape, t) && SentBy(lost, t)
    && Recorded(times, t)
    && (forall v :: t <= v ==>
          FreshTimes(times, v) <= FreshOrders(s.tape, v) <= FreshTimes(times, v) + FreshOrders(lost, v))
    && (CountsFit(s.tape) ==> forall u :: BuysIn(s.tape, u) <= cfg.maxTradesPerMin + OrdersIn(lost, u))
  }

  /** In a run that loses nothing, exactly the orders that still count are remembered. */
  ghost predicate Throttled(cfg: Config, s: State, t: Time) { ThrottledBut(cfg, s, t, []) }

  lemma TapeSnoc(tape: seq<Entry>, e: Entry, v: Time)
    ensures FreshOrders(tape + [e], v) ==
      FreshOrders(tape, v) + if e.Traded? && v - WINDOW < e.order.now then 1 else 0
    ensures BuysIn(tape + [e], v) ==
      BuysIn(tape, v) + if IsBuy(e) && v - WINDOW < e.order.now <= v then 1 else 0
  {
    assert (tape + [e])[..|tape|] == tape;
  }

  lemma CountsFitPrefix(tape: seq<Entry>, e: Entry)
    ensures CountsFit(tape + [e]) <==>
      CountsFit(tape) && (IsBuy(e) ==> FreshOrders(tape, e.order.now) < U32_VALUES)
  {
    var all := tape + [e];
    assert all[..|tape|] == tape;
    forall k | 0 <= k < |tape| ensures all[..k] == tape[..k] && all[k] == tape[k] {}
    if CountsFit(all) {
      assert all[|tape|] == e;
      forall k | 0 <= k < |tape| && IsBuy(tape[k]) ensures FreshOrders(tape[..k], tape[k].order.now) < U32_VALUES {
        assert IsBuy(all[k]);
      }
    }
  }

  lemma SettleKeepsThrottled(cfg: Config, s: State, now: Time, lost: seq<Entry>)
    requires ThrottledBut(cfg, s, now, lost)
    ensures var settled := s.WithRisk(Settle(s.controls.state, now));
      && ThrottledBut(cfg, settled, now, lost)
      && settled.controls.state.recentOrders == Prune(s.controls.state.recentOrders, now)
      && |settled.controls.state.recentOrders| == FreshTimes(settled.controls.state.recentOrders, now)
  {
    PruneKeepsFresh(s.controls.state.recentOrders, now);
  }

  /** One more order at `now`, remembered. If it is a buy, there was room for it. */
  lemma OrderKeepsThrottled(cfg: Config, s: State, s': State, now: Time, e: Entry, lost: seq<Entry>)
    requires ThrottledBut(cfg, s, now, lost) && e.Traded? && e.order.now == now
    requires var times := s.controls.state.recentOrders;
      IsBuy(e) ==> ThrottleBlock(cfg, s.controls.state).None? && |times| == FreshTimes(times, now)
    requires s'.tape == s.tape + [e]
    requires s'.controls.state.recentOrders == s.controls.state.recentOrders + [now]
    ensures ThrottledBut(cfg, s', now, lost)
  {
    hide CountsFit;
    var times := s.controls.state.recentOrders;
    forall v | now <= v
      ensures FreshTimes(times + [now], v) <= FreshOrders(s'.tape, v)
      ensures FreshOrders(s'.tape, v) <= FreshTimes(times + [now], v) + FreshOrders(lost, v)
    {
      TapeSnoc(s.tape, e, v);
      FreshTimesSnoc(times, now, v);
    }
    CountsFitPrefix(s.tape, e);
    if CountsFit(s'.tape) {
      forall u ensures BuysIn(s'.tape, u) <= cfg.maxTradesPerMin + OrdersIn(lost, u) {
        TapeSnoc(s.tape, e, u);
        if IsBuy(e) && now <= u {
          BuysAreFresh(s.tape, u);
          FreshTimesFade(times, now, u);
          PastOrdersAreIn(lost, now, u);
        }
      }
    }
  }

  lemma TickKeepsThrottled(cfg: Config, s: State, pu: PriceUpdate, lost: seq<Entry>)
    requires ThrottledBut(cfg, s, pu.ts, lost) && pu.mint in s.positions
    ensures ThrottledBut(cfg, ObserveTick(cfg, s, pu), pu.ts, lost)
  {
    hide Ruled, CountsFit;
    CountsFitPrefix(s.tape, Ticked(pu.mint, pu.priceUsd, pu.liquidityUsd, pu.ts));
    forall v ensures FreshOrders(ObserveTick(cfg, s, pu).tape, v) == FreshOrders(s.tape, v)
                  && BuysIn(ObserveTick(cfg, s, pu).tape, v) == BuysIn(s.tape, v) {
      TapeSnoc(s.tape, Ticked(pu.mint, pu.priceUsd, pu.liquidityUsd, pu.ts), v);
    }
  }

  lemma BuyKeepsThrottled(cfg: Config, exec: Executor, s: State, l: Launch, slice: real, lost: seq<Entry>)
    requires ThrottledBut(cfg, s, l.createdAt, lost) && Enabled(cfg, s, Slicing(l, slice))
    ensures ThrottledBut(cfg, SubmitSlice(cfg, exec, s, l, slice), l.createdAt, lost)
  {
    hide ThrottledBut, LossLimit, AddFill, Rollover, Prune;
    var order := SliceOrder(cfg, s, l, slice);
    var settled := s.WithRisk(Settle(s.controls.state, l.createdAt));
    SettleKeepsThrottled(cfg, s, l.createdAt, lost);
    OrderKeepsThrottled(cfg, settled, SubmitSlice(cfg, exec, s, l, slice), l.createdAt,
                        Traded(order, exec(order), Funnel), lost);
  }

  lemma SellKeepsThrottled(cfg: Config, exec: Executor, s: State, x: Exit, now: Time, cause: Cause, lost: seq<Entry>)
    requires ThrottledBut(cfg, s, now, lost)
    ensures ThrottledBut(cfg, ClosePosition(cfg, exec, s, x, now, cause), now, lost)
  {
    hide ThrottledBut, TradeOf, LossLimit, CountFailure;
    var order := ExitOrder(s.orderSeq + 1, x, now);
    OrderKeepsThrottled(cfg, s, ClosePosition(cfg, exec, s, x, now, cause), now,
                        Traded(order, exec(order), cause), lost);
  }

  lemma ThrottledIsInductive(cfg: Config, exec: Executor, lost: seq<Entry>)
    ensures Inductive(cfg, exec, (s, t) => ThrottledBut(cfg, s, t, lost), true)
  {
    hide CountsFit, FreshOrders, FreshTimes, BuysIn, OrdersIn, Apply;
    forall s: State, t: Time, mv: Move {:trigger ThrottledBut(cfg, s, t, lost), Enabled(cfg, s, mv)} |
      ThrottledBut(cfg, s, t, lost) && Coherent(s) && t <= mv.Now() && Enabled(cfg, s, mv)
      ensures ThrottledBut(cfg, Apply(cfg, exec, s, mv), mv.Now(), lost)
    {
      assert ThrottledBut(cfg, s, mv.Now(), lost);
      MoveKeepsThrottled(cfg, exec, s, mv, lost);
    }
  }

  lemma MoveKeepsThrottled(cfg: Config, exec: Executor, s: State, mv: Move, lost: seq<Entry>)
    requires ThrottledBut(cfg, s, mv.Now(), lost) && Enabled(cfg, s, mv)
    ensures ThrottledBut(cfg, Apply(cfg, exec, s, mv), mv.Now(), lost)
  {
    hide ThrottledBut;
    match mv
    case Settling(now) => SettleKeepsThrottled(cfg, s, now, lost);
    case Slicing(l, slice) => BuyKeepsThrottled(cfg, exec, s, l, slice, lost);
    case Ticking(pu) => TickKeepsThrottled(cfg, s, pu, lost);
    case Selling(x, now, cause) => SellKeepsThrottled(cfg, exec, s, x, now, cause, lost);
  }

  lemma RunIsThrottled(cfg: Config, exec: Executor, boot: Time, start: Time, steps: seq<Step>)
    requires cfg.Valid() && LegalRun(cfg, exec, Initial(cfg, boot), steps)
    requires Chronological(start, steps)
    ensures Throttled(cfg, Run(cfg, exec, Initial(cfg, boot), steps), LastTs(start, steps))
  {
    ThrottledIsInductive(cfg, exec, []);
    var inv := (s: State, t: Time) => ThrottledBut(cfg, s, t, []);
    assert inv(Initial(cfg, boot), start);
    RunKeeps(cfg, exec, inv, true, Initial(cfg, boot), start, steps);
    assert inv(Run(cfg, exec, Initial(cfg, boot), steps), LastTs(start, steps));
  }

  /** Rate limit. Over any legal run with nondecreasing event times, every window of a minute
      contains at most the configured number of submitted buys, however many sells (which are
      never refused) come in between, provided no minute before a buy saw 2^32 orders. */
  lemma BuyRateIsBounded(cfg: Config, exec: Executor, boot: Time, start: Time,
      steps: seq<Step>, u: Time)
    requires cfg.Valid() && LegalRun(cfg, exec, Initial(cfg, boot), steps)
    requires Chronological(start, steps)
    ensures var tape := Run(cfg, exec, Initial(cfg, boot), steps).tape;
      CountsFit(tape) ==> BuysIn(tape, u) <= cfg.maxTradesPerMin
  {
    hide Run, LegalRun, CountsFit;
    RunIsThrottled(cfg, exec, boot, start, steps);
    assert OrdersIn([], u) == 0;
  }

  /** The throttle decision, exactly. After any legal run with nondecreasing event times, a buy at
      `now` passes the throttle if and only if the number of orders, of either side, submitted in
      the last minute is below the limit modulo 2^32. */
  lemma ThrottleAdmitsIff(cfg: Config, exec: Executor, boot: Time, start: Time,
      steps: seq<Step>, now: Time)
    requires cfg.Valid() && LegalRun(cfg, exec, Initial(cfg, boot), steps)
    requires Chronological(start, steps) && LastTs(start, steps) <= now
    ensures var s := Run(cfg, exec, Initial(cfg, boot), steps);
      ThrottleBlock(cfg, Settle(s.controls.state, now)).None? <==>
        FreshOrders(s.tape, now) % U32_VALUES < cfg.maxTradesPerMin
  {
    hide Run, LegalRun, CountsFit;
    var s := Run(cfg, exec, Initial(cfg, boot), steps);
    RunIsThrottled(cfg, exec, boot, start, steps);
    assert Throttled(cfg, s, now);
    SettleKeepsThrottled(cfg, s, now, []);
    assert FreshOrders([], now) == 0;
  }
}
