/** The daily-loss latch is the one outcome of a sweep that can depend on the order in which the
    positions are met: exactly when it does. */
module LatchOrder {
  import opened Decimals
  import opened Domain
  import opened Risk
  import opened Machine
  import opened Moves
  import opened Confluence
  import opened Strategy

  // ---- Prefix sums ----

  function LossTotal(xs: seq<real>): real {
    if xs == [] then 0.0 else Min(xs[0], 0.0) + LossTotal(xs[1..])
  }

  /** Some nonempty prefix brings the running sum from `base` to the limit or below. */
  ghost predicate Trips(base: real, xs: seq<real>, limit: real) {
    exists k :: TripsAt(base, xs, limit, k)
  }

  predicate TripsAt(base: real, xs: seq<real>, limit: real, k: nat) {
    0 < k <= |xs| && base + Sum(xs[..k]) <= limit
  }

  lemma TripsSnoc(base: real, xs: seq<real>, x: real, limit: real)
    ensures Trips(base, xs + [x], limit) <==> Trips(base, xs, limit) || base + Sum(xs) + x <= limit
  {
    var all := xs + [x];
    assert all[..|xs|] == xs && all[..|all|] == all;
    SumSnoc(xs, x);
    forall k: nat | k <= |xs| ensures all[..k] == xs[..k] {}
    if k: nat :| TripsAt(base, all, limit, k) {
      if k <= |xs| {
        assert TripsAt(base, xs, limit, k);
      }
    }
    if k: nat :| TripsAt(base, xs, limit, k) {
      assert TripsAt(base, all, limit, k);
    }
    if base + Sum(xs) + x <= limit {
      assert TripsAt(base, all, limit, |all|);
    }
  }

  lemma {:induction false} TotalAppend(a: seq<real>, b: seq<real>)
    ensures Sum(a + b) == Sum(a) + Sum(b)
    ensures LossTotal(a + b) == LossTotal(a) + LossTotal(b)
  {
    if a == [] {
      assert a + b == b;
    } else {
      TotalAppend(a[1..], b);
      assert (a + b)[1..] == a[1..] + b;
    }
  }

  lemma {:induction false} LossBelowTotal(xs: seq<real>)
    ensures LossTotal(xs) <= Sum(xs) && LossTotal(xs) <= 0.0
  {
    if xs != [] {
      LossBelowTotal(xs[1..]);
    }
  }

  lemma {:induction false} AllLosses(xs: seq<real>)
    requires forall i :: 0 <= i < |xs| ==> xs[i] < 0.0
    ensures LossTotal(xs) == Sum(xs)
  {
    if xs != [] {
      AllLosses(xs[1..]);
    }
  }

  lemma {:induction false} NoLosses(xs: seq<real>)
    requires forall i :: 0 <= i < |xs| ==> xs[i] >= 0.0
    ensures Sum(xs) >= 0.0 && LossTotal(xs) == 0.0
  {
    if xs != [] {
      NoLosses(xs[1..]);
    }
  }

  lemma LossesAloneDecide(base: real, xs: seq<real>, limit: real)
    requires base + LossTotal(xs) > limit
    ensures !Trips(base, xs, limit)
  {
    forall k: nat ensures !TripsAt(base, xs, limit, k) {
      if 0 < k <= |xs| {
        assert xs == xs[..k] + xs[k..];
        TotalAppend(xs[..k], xs[k..]);
        LossBelowTotal(xs[..k]);
        LossBelowTotal(xs[k..]);
      }
    }
  }

  lemma LossesFirstTrip(base: real, losses: seq<real>, gains: seq<real>, limit: real)
    requires base > limit && base + Sum(losses) <= limit
    ensures Trips(base, losses + gains, limit)
  {
    assert (losses + gains)[..|losses|] == losses;
    assert TripsAt(base, losses + gains, limit, |losses|);
  }

  lemma GainsFirstDoNot(base: real, gains: seq<real>, losses: seq<real>, limit: real)
    requires base > limit && base + Sum(gains + losses) > limit
    requires forall i :: 0 <= i < |gains| ==> gains[i] >= 0.0
    requires forall i :: 0 <= i < |losses| ==> losses[i] < 0.0
    ensures !Trips(base, gains + losses, limit)
  {
    var xs := gains + losses;
    forall k: nat ensures !TripsAt(base, xs, limit, k) {
      if 0 < k <= |xs| {
        if k <= |gains| {
          assert xs[..k] == gains[..k];
          NoLosses(gains[..k]);
        } else {
          assert xs == xs[..k] + xs[k..];
          assert xs[k..] == losses[k - |gains|..];
          TotalAppend(xs[..k], xs[k..]);
          AllLosses(xs[k..]);
          LossBelowTotal(xs[k..]);
        }
      }
    }
  }

  // ---- The latch of a sweep ----

  /** The P&L of the trades a sweep makes, in the order it makes them. */
  function PnlsOf(cfg: Config, exec: Executor, book: map<Mint, Position>, order: seq<Mint>, now: Time): seq<real> {
    if order == [] then []
    else
      var front := PnlsOf(cfg, exec, book, order[..|order| - 1], now);
      match OutcomeOf(cfg, exec, book, order[|order| - 1], now)
      case SoldAs(t) => front + [t.pnlUsd]
      case _ => front
  }

  lemma {:induction false} PnlsMatchEffect(cfg: Config, exec: Executor, book: map<Mint, Position>,
      order: seq<Mint>, now: Time)
    ensures var xs, e := PnlsOf(cfg, exec, book, order, now), EffectOf(cfg, exec, book, order, now);
      Sum(xs) == e.gain && LossTotal(xs) == e.loss && (xs != [] <==> e.sold)
  {
    hide OutcomeOf, Sum, LossTotal;
    if order == [] {
      assert Sum([]) == 0.0 && LossTotal([]) == 0.0 by { NothingTotal(); }
    } else {
      var front := order[..|order| - 1];
      PnlsMatchEffect(cfg, exec, book, front, now);
      var xs, last := PnlsOf(cfg, exec, book, front, now), OutcomeOf(cfg, exec, book, order[|order| - 1], now);
      if last.SoldAs? {
        TotalAppend(xs, [last.trade.pnlUsd]);
        SingleTotal(last.trade.pnlUsd);
      }
    }
  }

  lemma NothingTotal()
    ensures Sum([]) == 0.0 && LossTotal([]) == 0.0
  {}

  lemma SingleTotal(x: real)
    ensures Sum([x]) == x && LossTotal([x]) == Min(x, 0.0)
  {
    assert [x][1..] == [];
  }

  /** The latch after a sweep that has met the tokens of `order`. */
  ghost predicate LatchAfter(cfg: Config, exec: Executor, s: State, order: seq<Mint>, now: Time) {
    var r, xs := s.controls.state, PnlsOf(cfg, exec, s.positions, order, now);
    if xs == [] then r.dailyLossTripped
    else Rollover(r, now).dailyLossTripped || Trips(DayBase(r, now), xs, LossLimit(cfg))
  }

  lemma {:induction false} LatchClosedForm(cfg: Config, exec: Executor, s: State, order: seq<Mint>, now: Time)
    requires IdBlind(exec) && Coherent(s) && Distinct(order)
    ensures CloseAll(cfg, exec, s, Collect(cfg, s.positions, order, now), now).controls.state.dailyLossTripped
      <==> LatchAfter(cfg, exec, s, order, now)
    decreases |order|
  {
    hide Expired, ClosePosition, LossLimit, Swept, LatchAfter;
    if order == [] {
      assert LatchAfter(cfg, exec, s, order, now) <==> s.controls.state.dailyLossTripped by {
        LatchOfNothing(cfg, exec, s, now);
      }
    } else {
      var front, m := order[..|order| - 1], order[|order| - 1];
      LatchClosedForm(cfg, exec, s, front, now);
      SweepClosedForm(cfg, exec, s, front, now);
      var exits := Collect(cfg, s.positions, front, now);
      var t := CloseAll(cfg, exec, s, exits, now);
      if m in s.positions && Expired(cfg, s.positions[m], now).Some? {
        CloseAllSnoc(cfg, exec, s, exits, ExitOf(cfg, s.positions[m], now), now);
      }
      LatchStep(cfg, exec, s, t, order, now);
    }
  }

  lemma LatchOfNothing(cfg: Config, exec: Executor, s: State, now: Time)
    ensures LatchAfter(cfg, exec, s, [], now) <==> s.controls.state.dailyLossTripped
  {}

  lemma LatchStep(cfg: Config, exec: Executor, s: State, t: State, order: seq<Mint>, now: Time)
    requires IdBlind(exec) && order != []
    requires Swept(cfg, exec, s, order[..|order| - 1], now, t)
    requires t.controls.state.dailyLossTripped <==> LatchAfter(cfg, exec, s, order[..|order| - 1], now)
    ensures var m := order[|order| - 1];
      var t' := if m in s.positions && Expired(cfg, s.positions[m], now).Some?
        then ClosePosition(cfg, exec, t, ExitOf(cfg, s.positions[m], now), now, Sweep)
        else t;
      t'.controls.state.dailyLossTripped <==> LatchAfter(cfg, exec, s, order, now)
  {
    hide Expired, CountFailure, LossLimit, PnlPct, SweptBook, EffectOf, Trips, TradeOf;
    var m, front := order[|order| - 1], order[..|order| - 1];
    if m in s.positions && Expired(cfg, s.positions[m], now).Some? {
      var x := ExitOf(cfg, s.positions[m], now);
      AnswerIgnoresId(exec, x, now, t.orderSeq + 1);
      var reply := exec(ExitOrder(0, x, now));
      if reply.Filled? {
        var xs := PnlsOf(cfg, exec, s.positions, front, now);
        PnlsMatchEffect(cfg, exec, s.positions, front, now);
        TripsSnoc(DayBase(s.controls.state, now), xs, TradeOf(x, reply.fill, now).pnlUsd, LossLimit(cfg));
        TripsNothing(DayBase(s.controls.state, now), LossLimit(cfg));
      }
    }
  }

  lemma TripsNothing(base: real, limit: real)
    ensures !Trips(base, [], limit)
  {}

  // ---- Orders that put losses first, or last ----

  predicate Loses(cfg: Config, exec: Executor, book: map<Mint, Position>, m: Mint, now: Time) {
    var o := OutcomeOf(cfg, exec, book, m, now);
    o.SoldAs? && o.trade.pnlUsd < 0.0
  }

  /** The tokens of `order` that would (or would not) be sold at a loss. */
  function Pick(cfg: Config, exec: Executor, book: map<Mint, Position>, order: seq<Mint>, now: Time,
      losing: bool): seq<Mint>
  {
    if order == [] then []
    else
      var front := Pick(cfg, exec, book, order[..|order| - 1], now, losing);
      var m := order[|order| - 1];
      if Loses(cfg, exec, book, m, now) == losing then front + [m] else front
  }

  lemma {:induction false} PickSplits(cfg: Config, exec: Executor, book: map<Mint, Position>,
      order: seq<Mint>, now: Time)
    requires Distinct(order)
    ensures var a, b := Pick(cfg, exec, book, order, now, true), Pick(cfg, exec, book, order, now, false);
      && Distinct(a) && Distinct(b)
      && (forall m :: m in a <==> m in order && Loses(cfg, exec, book, m, now))
      && (forall m :: m in b <==> m in order && !Loses(cfg, exec, book, m, now))
  {
    hide Loses;
    if order != [] {
      var front, last := order[..|order| - 1], order[|order| - 1];
      PickSplits(cfg, exec, book, front, now);
      assert forall m :: m in order <==> m in front || m == last;
    }
  }

  lemma PicksEnumerate(cfg: Config, exec: Executor, book: map<Mint, Position>,
      order: seq<Mint>, now: Time, keys: set<Mint>)
    requires Enumerates(order, keys)
    ensures var a, b := Pick(cfg, exec, book, order, now, true), Pick(cfg, exec, book, order, now, false);
      Enumerates(a + b, keys) && Enumerates(b + a, keys)
  {
    hide Loses, Pick;
    PickSplits(cfg, exec, book, order, now);
    var a, b := Pick(cfg, exec, book, order, now, true), Pick(cfg, exec, book, order, now, false);
    DistinctUnion(a, b);
    DistinctUnion(b, a);
    assert forall m :: m in a + b <==> m in a || m in b;
    assert forall m :: m in b + a <==> m in a || m in b;
  }

  lemma DistinctUnion(a: seq<Mint>, b: seq<Mint>)
    requires Distinct(a) && Distinct(b) && forall m :: !(m in a && m in b)
    ensures Distinct(a + b)
  {
    var c := a + b;
    forall i, j | 0 <= i < j < |c| ensures c[i] != c[j] {
      if i < |a| <= j {
        assert c[i] in a && c[j] in b;
      }
    }
  }

  lemma {:induction false} PnlsAppend(cfg: Config, exec: Executor, book: map<Mint, Position>,
      a: seq<Mint>, b: seq<Mint>, now: Time)
    ensures PnlsOf(cfg, exec, book, a + b, now) ==
      PnlsOf(cfg, exec, book, a, now) + PnlsOf(cfg, exec, book, b, now)
    decreases |b|
  {
    hide OutcomeOf;
    if b == [] {
      assert a + b == a;
    } else {
      PnlsAppend(cfg, exec, book, a, b[..|b| - 1], now);
      assert (a + b)[..|a + b| - 1] == a + b[..|b| - 1];
    }
  }

  lemma {:induction false} PickedPnls(cfg: Config, exec: Executor, book: map<Mint, Position>,
      order: seq<Mint>, now: Time)
    ensures forall i :: 0 <= i < |PnlsOf(cfg, exec, book, Pick(cfg, exec, book, order, now, true), now)| ==>
      PnlsOf(cfg, exec, book, Pick(cfg, exec, book, order, now, true), now)[i] < 0.0
    ensures forall i :: 0 <= i < |PnlsOf(cfg, exec, book, Pick(cfg, exec, book, order, now, false), now)| ==>
      PnlsOf(cfg, exec, book, Pick(cfg, exec, book, order, now, false), now)[i] >= 0.0
  {
    hide OutcomeOf;
    if order != [] {
      var front, m := order[..|order| - 1], order[|order| - 1];
      PickedPnls(cfg, exec, book, front, now);
      var losing := Loses(cfg, exec, book, m, now);
      var picked := Pick(cfg, exec, book, front, now, losing);
      assert (picked + [m])[..|picked|] == picked;
    }
  }

  /** A condition on a sweep: its trades together reach the limit, or not even its losing trades
      alone do. */
  predicate Decided(cfg: Config, exec: Executor, s: State, order: seq<Mint>, now: Time) {
    var e := EffectOf(cfg, exec, s.positions, order, now);
    var base := DayBase(s.controls.state, now);
    base + e.gain <= LossLimit(cfg) || base + e.loss > LossLimit(cfg)
  }

  /** No latch of today is set, and the day's P&L is above the limit. A latch left over from an
      earlier day does not count: the first sale of the sweep clears it. */
  predicate Unlatchable(cfg: Config, r: RiskState, now: Time) {
    !Rollover(r, now).dailyLossTripped && DayBase(r, now) > LossLimit(cfg)
  }

  lemma DecidedLatch(cfg: Config, exec: Executor, s: State, order: seq<Mint>, now: Time)
    requires Unlatchable(cfg, s.controls.state, now) && Decided(cfg, exec, s, order, now)
    ensures var r, e := s.controls.state, EffectOf(cfg, exec, s.positions, order, now);
      LatchAfter(cfg, exec, s, order, now) <==>
        if e.sold then DayBase(r, now) + e.gain <= LossLimit(cfg) else r.dailyLossTripped
  {
    hide LossLimit, EffectOf, PnlsOf;
    var xs := PnlsOf(cfg, exec, s.positions, order, now);
    var base := DayBase(s.controls.state, now);
    PnlsMatchEffect(cfg, exec, s.positions, order, now);
    LossBelowTotal(xs);
    if base + Sum(xs) <= LossLimit(cfg) {
      assert xs[..|xs|] == xs;
      assert TripsAt(base, xs, LossLimit(cfg), |xs|);
    } else {
      LossesAloneDecide(base, xs, LossLimit(cfg));
    }
  }

  /** An undecided sweep latches when it meets the losing positions first, and does not when it
      meets them last. */
  lemma UndecidedLatch(cfg: Config, exec: Executor, s: State, order: seq<Mint>, now: Time)
    requires Enumerates(order, s.positions.Keys)
    requires Unlatchable(cfg, s.controls.state, now)
    requires !Decided(cfg, exec, s, order, now)
    ensures var a, b := Pick(cfg, exec, s.positions, order, now, true), Pick(cfg, exec, s.positions, order, now, false);
      && Enumerates(a + b, s.positions.Keys) && LatchAfter(cfg, exec, s, a + b, now)
      && Enumerates(b + a, s.positions.Keys) && !LatchAfter(cfg, exec, s, b + a, now)
  {
    hide LossLimit, EffectOf, PnlsOf, Pick, Trips, Sum, LossTotal;
    var book, base := s.positions, DayBase(s.controls.state, now);
    var a, b := Pick(cfg, exec, book, order, now, true), Pick(cfg, exec, book, order, now, false);
    var losses, gains := PnlsOf(cfg, exec, book, a, now), PnlsOf(cfg, exec, book, b, now);
    PicksEnumerate(cfg, exec, book, order, now, book.Keys);
    EnumerationsAgree(order, a + b, book.Keys);
    EffectIgnoresOrder(cfg, exec, book, order, a + b, now);
    PnlsMatchEffect(cfg, exec, book, a + b, now);
    PnlsAppend(cfg, exec, book, a, b, now);
    PnlsAppend(cfg, exec, book, b, a, now);
    PickedPnls(cfg, exec, book, order, now);
    TotalAppend(losses, gains);
    TotalAppend(gains, losses);
    AllLosses(losses);
    NoLosses(gains);
    LossesFirstTrip(base, losses, gains, LossLimit(cfg));
    GainsFirstDoNot(base, gains, losses, LossLimit(cfg));
    TripsNothing(base, LossLimit(cfg));
  }

  /** The latch after the sweep. */
  predicate Latched(cfg: Config, exec: Executor, s: State, order: seq<Mint>, now: Time) {
    SweepTimeStops(cfg, exec, s, order, now).controls.state.dailyLossTripped
  }

  /** When the latch is confluent. Every iteration order of the sweep leaves the daily-loss latch the
      same if and only if it is set for today already, or the day's P&L with all the sweep's trades
      is at or below the limit, or stays above it even with the losing trades only. */
  lemma LatchConfluentIff(cfg: Config, exec: Executor, s: State, order: seq<Mint>, now: Time)
    requires IdBlind(exec) && Coherent(s) && Enumerates(order, s.positions.Keys)
    requires Guarded(cfg, s.controls.state, now)
    ensures Rollover(s.controls.state, now).dailyLossTripped || Decided(cfg, exec, s, order, now) <==>
      forall other :: Enumerates(other, s.positions.Keys) ==>
        Latched(cfg, exec, s, other, now) == Latched(cfg, exec, s, order, now)
  {
    hide LossLimit, EffectOf, LatchAfter, CloseAll, Collect, Pick;
    LatchClosedForm(cfg, exec, s, order, now);
    if Rollover(s.controls.state, now).dailyLossTripped {
      forall other | Enumerates(other, s.positions.Keys) ensures Latched(cfg, exec, s, other, now) {
        LatchClosedForm(cfg, exec, s, other, now);
        LatchStays(cfg, exec, s, other, now);
      }
    } else if Decided(cfg, exec, s, order, now) {
      DecidedLatch(cfg, exec, s, order, now);
      forall other | Enumerates(other, s.positions.Keys)
        ensures Latched(cfg, exec, s, other, now) == Latched(cfg, exec, s, order, now)
      {
        EnumerationsAgree(order, other, s.positions.Keys);
        EffectIgnoresOrder(cfg, exec, s.positions, order, other, now);
        DecidedLatch(cfg, exec, s, other, now);
        LatchClosedForm(cfg, exec, s, other, now);
      }
    } else {
      UndecidedLatch(cfg, exec, s, order, now);
      var a, b := Pick(cfg, exec, s.positions, order, now, true), Pick(cfg, exec, s.positions, order, now, false);
      LatchClosedForm(cfg, exec, s, a + b, now);
      LatchClosedForm(cfg, exec, s, b + a, now);
    }
  }

  lemma LatchStays(cfg: Config, exec: Executor, s: State, order: seq<Mint>, now: Time)
    requires Rollover(s.controls.state, now).dailyLossTripped
    ensures LatchAfter(cfg, exec, s, order, now)
  {}

  // ---- The guard holds wherever a sweep starts ----

  /** The latch is set for today, or the day's P&L is above the limit. */
  predicate Guarded(cfg: Config, r: RiskState, now: Time) {
    Rollover(r, now).dailyLossTripped || Unlatchable(cfg, r, now)
  }

  predicate GuardKept(cfg: Config, r: RiskState) { r.dailyLossTripped || r.dayRealizedPnl > LossLimit(cfg) }

  lemma MoveKeepsGuard(cfg: Config, exec: Executor, s: State, mv: Move)
    requires LossLimit(cfg) < 0.0 && GuardKept(cfg, s.controls.state) && Enabled(cfg, s, mv)
    ensures GuardKept(cfg, Apply(cfg, exec, s, mv).controls.state)
  {
    hide LossLimit, TradeOf, CountFailure, AddFill, Ruled, Prune;
  }

  lemma GuardIsInductive(cfg: Config, exec: Executor)
    requires LossLimit(cfg) < 0.0
    ensures Inductive(cfg, exec, (s: State, _: Time) => GuardKept(cfg, s.controls.state), false)
  {
    hide LossLimit;
    forall s: State, mv: Move | GuardKept(cfg, s.controls.state) && Coherent(s) && Enabled(cfg, s, mv)
      ensures GuardKept(cfg, Apply(cfg, exec, s, mv).controls.state)
    {
      MoveKeepsGuard(cfg, exec, s, mv);
    }
  }

  /** With a positive loss limit, an unlatched day of a legal run is above its limit. */
  lemma RunIsGuarded(cfg: Config, exec: Executor, boot: Time, steps: seq<Step>)
    requires cfg.Valid() && cfg.dailyLossLimitPct > 0.0
    requires LegalRun(cfg, exec, Initial(cfg, boot), steps)
    ensures LossLimit(cfg) < 0.0
    ensures GuardKept(cfg, Run(cfg, exec, Initial(cfg, boot), steps).controls.state)
  {
    assert LossLimit(cfg) < 0.0;
    hide LossLimit;
    GuardIsInductive(cfg, exec);
    var inv := (s: State, _: Time) => GuardKept(cfg, s.controls.state);
    assert inv(Initial(cfg, boot), boot);
    RunKeeps(cfg, exec, inv, false, Initial(cfg, boot), boot, steps);
    assert inv(Run(cfg, exec, Initial(cfg, boot), steps), LastTs(boot, steps));
  }

  // With a loss limit of zero percent or less the day starts at its limit, and nothing is ever bought.

  predicate Idle(s: State) { s.positions == map[] && s.controls.state.dayRealizedPnl == 0.0 }

  lemma IdleIsInductive(cfg: Config, exec: Executor)
    requires LossLimit(cfg) >= 0.0
    ensures Inductive(cfg, exec, (s: State, _: Time) => Idle(s), false)
  {
    hide LossLimit;
    forall s: State, mv: Move | Idle(s) && Coherent(s) && Enabled(cfg, s, mv)
      ensures Idle(Apply(cfg, exec, s, mv))
    {
      NothingTrades(cfg, s, mv);
    }
  }

  lemma NothingTrades(cfg: Config, s: State, mv: Move)
    requires LossLimit(cfg) >= 0.0 && Idle(s) && Enabled(cfg, s, mv)
    ensures mv.Settling?
  {
    hide LossLimit, Expired, Prune;
  }

  lemma HandledKeeps(cfg: Config, exec: Executor, boot: Time, steps: seq<Step>, ev: Event, inv: Property)
    requires cfg.Valid() && LegalRun(cfg, exec, Initial(cfg, boot), steps)
    requires Inductive(cfg, exec, inv, false) && inv(Initial(cfg, boot), boot)
    ensures inv(Handle(cfg, exec, Run(cfg, exec, Initial(cfg, boot), steps), ev), ev.Ts())
  {
    var s := Run(cfg, exec, Initial(cfg, boot), steps);
    RunKeeps(cfg, exec, inv, false, Initial(cfg, boot), boot, steps);
    TimeKeeps(cfg, exec, inv, false, s, LastTs(boot, steps), ev.Ts());
    HandleKeeps(cfg, exec, inv, false, s, ev);
  }

  /** Every state in which a legal run starts a sweep of some position is guarded. */
  lemma SweepsStartGuarded(cfg: Config, exec: Executor, boot: Time, steps: seq<Step>, ev: Event)
    requires cfg.Valid() && LegalRun(cfg, exec, Initial(cfg, boot), steps)
    ensures var handled := Handle(cfg, exec, Run(cfg, exec, Initial(cfg, boot), steps), ev);
      handled.positions != map[] ==> Guarded(cfg, handled.controls.state, ev.Ts())
  {
    hide Handle, Run, LegalRun;
    var handled := Handle(cfg, exec, Run(cfg, exec, Initial(cfg, boot), steps), ev);
    if cfg.dailyLossLimitPct > 0.0 {
      assert LossLimit(cfg) < 0.0;
      GuardIsInductive(cfg, exec);
      var inv := (s: State, _: Time) => GuardKept(cfg, s.controls.state);
      assert inv(Initial(cfg, boot), boot);
      HandledKeeps(cfg, exec, boot, steps, ev, inv);
      assert inv(handled, ev.Ts());
      hide LossLimit;
    } else {
      assert LossLimit(cfg) >= 0.0;
      IdleIsInductive(cfg, exec);
      var inv := (s: State, _: Time) => Idle(s);
      assert inv(Initial(cfg, boot), boot);
      HandledKeeps(cfg, exec, boot, steps, ev, inv);
      assert inv(handled, ev.Ts());
    }
  }
}
