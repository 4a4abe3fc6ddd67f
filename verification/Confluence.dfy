/** The time-stop sweep meets the open positions in an arbitrary order. Its outcome does not
    depend on that order, except for the daily-loss latch, whose dependence is characterized. */
module Confluence {
  import opened Decimals
  import opened Domain
  import opened Risk
  import opened Machine
  import opened Moves
  import Lifetime

  // ---- Executors that answer by content ----

  function Anonymous(r: Reply): Reply {
    match r
    case Filled(f) => Filled(f.(orderId := ("", 0)))
    case Failed(e) => r
  }

  function Renumbered(o: Order, n: nat): Order { o.(id := n) }

  /** The answer to an order depends on its content, not on its id. */
  ghost predicate IdBlind(exec: Executor) {
    forall o: Order, n: nat :: Anonymous(exec(Renumbered(o, n))) == Anonymous(exec(o))
  }

  /** What the sweep does with one token at `now`: nothing, a failed sell, or a trade. */
  datatype Outcome = Kept | Refused | SoldAs(trade: ClosedTrade)

  function OutcomeOf(cfg: Config, exec: Executor, book: map<Mint, Position>, m: Mint, now: Time): Outcome {
    if m !in book || Expired(cfg, book[m], now).None? then Kept
    else
      var x := ExitOf(cfg, book[m], now);
      match exec(ExitOrder(0, x, now))
      case Failed(_) => Refused
      case Filled(f) => SoldAs(TradeOf(x, f, now))
  }

  /** The total effect of sweeping the tokens of an order; `loss` sums the losing trades only. */
  datatype Effect = Effect(gain: real, loss: real, freed: real, trades: multiset<ClosedTrade>, sent: nat, sold: bool)

  const NOTHING := Effect(0.0, 0.0, 0.0, multiset{}, 0, false)

  function Combine(a: Effect, b: Effect): Effect {
    Effect(a.gain + b.gain, a.loss + b.loss, a.freed + b.freed, a.trades + b.trades, a.sent + b.sent, a.sold || b.sold)
  }

  function EffectAt(o: Outcome): Effect {
    match o
    case Kept => NOTHING
    case Refused => Effect(0.0, 0.0, 0.0, multiset{}, 1, false)
    case SoldAs(t) => Effect(t.pnlUsd, Min(t.pnlUsd, 0.0), t.costUsd, multiset{t}, 1, true)
  }

  function EffectOf(cfg: Config, exec: Executor, book: map<Mint, Position>, order: seq<Mint>, now: Time): Effect {
    if order == [] then NOTHING
    else
      Combine(EffectOf(cfg, exec, book, order[..|order| - 1], now),
              EffectAt(OutcomeOf(cfg, exec, book, order[|order| - 1], now)))
  }

  lemma CombineSwaps(a: Effect, b: Effect, c: Effect)
    ensures Combine(Combine(a, b), c) == Combine(Combine(a, c), b)
  {}

  lemma {:induction false} EffectSplit(cfg: Config, exec: Executor, book: map<Mint, Position>,
                                       a: seq<Mint>, m: Mint, b: seq<Mint>, now: Time)
    ensures EffectOf(cfg, exec, book, a + [m] + b, now) ==
      Combine(EffectOf(cfg, exec, book, a + b, now), EffectAt(OutcomeOf(cfg, exec, book, m, now)))
    decreases |b|
  {
    hide OutcomeOf, Combine, EffectAt;
    if b == [] {
      assert a + [m] + b == a + [m] && a + b == a;
      assert (a + [m])[..|a|] == a;
    } else {
      CombineSwaps(EffectOf(cfg, exec, book, a + b[..|b| - 1], now),
                   EffectAt(OutcomeOf(cfg, exec, book, m, now)),
                   EffectAt(OutcomeOf(cfg, exec, book, b[|b| - 1], now)));
      var front, last := b[..|b| - 1], b[|b| - 1];
      EffectSplit(cfg, exec, book, a, m, front, now);
      assert (a + [m] + b)[..|a + [m] + b| - 1] == a + [m] + front;
      assert (a + b)[..|a + b| - 1] == a + front;
    }
  }

  /** The total effect is the same for every order of the same tokens. */
  lemma {:induction false} EffectIgnoresOrder(cfg: Config, exec: Executor, book: map<Mint, Position>,
                                              order: seq<Mint>, other: seq<Mint>, now: Time)
    requires multiset(order) == multiset(other)
    ensures EffectOf(cfg, exec, book, order, now) == EffectOf(cfg, exec, book, other, now)
    decreases |order|
  {
    hide OutcomeOf, Combine, EffectAt;
    if order == [] {
      assert |multiset(other)| == 0;
    } else {
      var front, m := order[..|order| - 1], order[|order| - 1];
      var i := RemoveOne(order, other);
      var a, b := other[..i], other[i + 1..];
      EffectSplit(cfg, exec, book, a, m, b, now);
      EffectIgnoresOrder(cfg, exec, book, front, a + b, now);
    }
  }

  /** Where the last token of one order is in the other. */
  lemma RemoveOne(order: seq<Mint>, other: seq<Mint>) returns (i: nat)
    requires order != [] && multiset(order) == multiset(other)
    ensures i < |other| && other == other[..i] + [order[|order| - 1]] + other[i + 1..]
    ensures multiset(order[..|order| - 1]) == multiset(other[..i] + other[i + 1..])
  {
    var front, m := order[..|order| - 1], order[|order| - 1];
    assert order == front + [m];
    assert m in multiset(other);
    i :| 0 <= i < |other| && other[i] == m;
    var a, b := other[..i], other[i + 1..];
    assert other == a + [m] + b;
    assert multiset(other) == multiset(a + b) + multiset{m};
    assert multiset(order) == multiset(front) + multiset{m};
    assert multiset(a + b) == multiset(other) - multiset{m} == multiset(front);
  }

  lemma EnumerationsAgree(a: seq<Mint>, b: seq<Mint>, keys: set<Mint>)
    requires Enumerates(a, keys) && Enumerates(b, keys)
    ensures multiset(a) == multiset(b)
  {
    EnumerationCounts(a, keys);
    EnumerationCounts(b, keys);
  }

  lemma {:induction false} EnumerationCounts(a: seq<Mint>, keys: set<Mint>)
    requires Enumerates(a, keys)
    ensures multiset(a) == multiset(keys)
  {
    if a == [] {
      assert forall x :: x !in keys;
    } else {
      var front, last := a[..|a| - 1], a[|a| - 1];
      assert a == front + [last];
      forall x ensures x in front <==> x in keys - {last} {
        assert x in a <==> x in front || x == last;
      }
      EnumerationCounts(front, keys - {last});
      assert multiset(keys) == multiset(keys - {last}) + multiset{last};
    }
  }

  // ---- The sweep in closed form ----

  lemma {:induction false} CloseAllSnoc(cfg: Config, exec: Executor, s: State, exits: seq<Exit>, x: Exit, now: Time)
    ensures CloseAll(cfg, exec, s, exits + [x], now) ==
      ClosePosition(cfg, exec, CloseAll(cfg, exec, s, exits, now), x, now, Sweep)
    decreases |exits|
  {
    hide ClosePosition;
    if exits == [] {
      assert ([x])[1..] == [];
    } else {
      assert (exits + [x])[1..] == exits[1..] + [x];
      CloseAllSnoc(cfg, exec, ClosePosition(cfg, exec, s, exits[0], now, Sweep), exits[1..], x, now);
    }
  }

  function DayBase(r: RiskState, now: Time): real {
    Rollover(r, now).dayRealizedPnl
  }

  /** The position of `m` after a sweep that has met the tokens of `order`. */
  function SweptAt(cfg: Config, exec: Executor, book: map<Mint, Position>, order: seq<Mint>, now: Time,
      m: Mint): Option<Position>
  {
    if m !in book then None
    else if m !in order then Some(book[m])
    else
      match OutcomeOf(cfg, exec, book, m, now)
      case Kept => Some(book[m])
      case Refused => Some(CountFailure(cfg, book[m]))
      case SoldAs(_) => None
  }

  /** The control state, up to the latch, after a sweep with the given effect. */
  function SweptControls(r: RiskState, e: Effect, now: Time): RiskState {
    RiskState(
      if e.sold then DayBase(r, now) + e.gain else r.dayRealizedPnl,
      if e.sold then DayOf(now) else r.day,
      false,
      r.kill,
      r.recentOrders + seq(e.sent, _ => now))
  }

  function Unlatched(r: RiskState): RiskState { r.(dailyLossTripped := false) }

  ghost predicate SweptMoney(s: State, e: Effect, now: Time, s': State) {
    && (!e.sold ==> e.gain == 0.0)
    && s'.equity == s.equity + e.gain
    && s'.deployed == s.deployed - e.freed
    && multiset(s'.closed) == multiset(s.closed) + e.trades
    && s'.orderSeq == s.orderSeq + e.sent
    && Unlatched(s'.controls.state) == SweptControls(s.controls.state, e, now)
  }

  ghost predicate SweptBook(cfg: Config, exec: Executor, s: State, order: seq<Mint>, now: Time, s': State) {
    forall m :: Lifetime.At(s'.positions, m) == SweptAt(cfg, exec, s.positions, order, now, m)
  }

  /** `s'` is what sweeping `order` from `s` amounts to. */
  ghost predicate Swept(cfg: Config, exec: Executor, s: State, order: seq<Mint>, now: Time, s': State) {
    && SweptMoney(s, EffectOf(cfg, exec, s.positions, order, now), now, s')
    && SweptBook(cfg, exec, s, order, now, s')
  }

  lemma AnswerIgnoresId(exec: Executor, x: Exit, now: Time, n: nat)
    requires IdBlind(exec)
    ensures exec(ExitOrder(n, x, now)).Filled? <==> exec(ExitOrder(0, x, now)).Filled?
    ensures exec(ExitOrder(0, x, now)).Filled? ==>
      TradeOf(x, exec(ExitOrder(n, x, now)).fill, now) == TradeOf(x, exec(ExitOrder(0, x, now)).fill, now)
  {
    hide PnlPct;
    var o := ExitOrder(0, x, now);
    assert ExitOrder(n, x, now) == Renumbered(o, n);
    assert Anonymous(exec(Renumbered(o, n))) == Anonymous(exec(o));
  }

  lemma ExitMoney(cfg: Config, exec: Executor, s: State, t: State, e: Effect, x: Exit, now: Time)
    requires IdBlind(exec) && SweptMoney(s, e, now, t)
    ensures var reply := exec(ExitOrder(0, x, now));
      var o := if reply.Filled? then SoldAs(TradeOf(x, reply.fill, now)) else Refused;
      SweptMoney(s, Combine(e, EffectAt(o)), now, ClosePosition(cfg, exec, t, x, now, Sweep))
  {
    hide Combine, EffectAt, ClosePosition, SweptMoney, TradeOf;
    AnswerIgnoresId(exec, x, now, t.orderSeq + 1);
    if exec(ExitOrder(0, x, now)).Filled? {
      SaleMoney(cfg, exec, s, t, e, x, now);
    } else {
      RefusalMoney(cfg, exec, s, t, e, x, now);
    }
  }

  lemma RefusalMoney(cfg: Config, exec: Executor, s: State, t: State, e: Effect,
      x: Exit, now: Time)
    requires SweptMoney(s, e, now, t) && exec(ExitOrder(t.orderSeq + 1, x, now)).Failed?
    ensures SweptMoney(s, Combine(e, EffectAt(Refused)), now, ClosePosition(cfg, exec, t, x, now, Sweep))
  {
    hide CountFailure, SettleSale, SweptControls, Unlatched;
    RefusalOnlyCounts(s.controls.state, t.controls.state, e, now);
  }

  lemma RefusalOnlyCounts(r: RiskState, rt: RiskState, e: Effect, now: Time)
    requires Unlatched(rt) == SweptControls(r, e, now)
    ensures Unlatched(PushOrder(rt, now)) == SweptControls(r, Combine(e, EffectAt(Refused)), now)
  {
    assert seq(e.sent + 1, _ => now) == seq(e.sent, _ => now) + [now];
  }

  lemma SaleMoney(cfg: Config, exec: Executor, s: State, t: State, e: Effect, x: Exit, now: Time)
    requires SweptMoney(s, e, now, t) && exec(ExitOrder(t.orderSeq + 1, x, now)).Filled?
    ensures var trade := TradeOf(x, exec(ExitOrder(t.orderSeq + 1, x, now)).fill, now);
      SweptMoney(s, Combine(e, EffectAt(SoldAs(trade))), now, ClosePosition(cfg, exec, t, x, now, Sweep))
  {
    hide PnlPct, RecordPnl, Proceeds, SweptControls, Unlatched, FailExit, Risk.LossLimit;
    var trade := TradeOf(x, exec(ExitOrder(t.orderSeq + 1, x, now)).fill, now);
    RecordMoney(cfg, s.controls.state, t.controls.state, e, trade, now);
    assert multiset(t.closed + [trade]) == multiset(t.closed) + multiset{trade};
  }

  lemma RecordMoney(cfg: Config, r: RiskState, rt: RiskState, e: Effect,
      trade: ClosedTrade, now: Time)
    requires Unlatched(rt) == SweptControls(r, e, now) && (!e.sold ==> e.gain == 0.0)
    ensures Unlatched(RecordPnl(cfg, PushOrder(rt, now), trade.pnlUsd, now)) ==
      SweptControls(r, Combine(e, EffectAt(SoldAs(trade))), now)
  {
    hide LossLimit;
    assert seq(e.sent + 1, _ => now) == seq(e.sent, _ => now) + [now];
    assert rt.recentOrders + [now] == r.recentOrders + (seq(e.sent, _ => now) + [now]);
  }

  lemma ExitBook(cfg: Config, exec: Executor, s: State, t: State, front: seq<Mint>,
      m: Mint, now: Time)
    requires IdBlind(exec) && Coherent(s) && m !in front && m in s.positions
    requires Expired(cfg, s.positions[m], now).Some?
    requires SweptBook(cfg, exec, s, front, now, t)
    ensures SweptBook(cfg, exec, s, front + [m], now,
      ClosePosition(cfg, exec, t, ExitOf(cfg, s.positions[m], now), now, Sweep))
  {
    hide Expired, CountFailure, ClosePosition, TradeOf;
    var book, order := s.positions, front + [m];
    var x := ExitOf(cfg, book[m], now);
    AnswerIgnoresId(exec, x, now, t.orderSeq + 1);
    assert Lifetime.At(t.positions, m) == SweptAt(cfg, exec, book, front, now, m) == Some(book[m]);
    ExitOutcome(cfg, exec, t, x, now, Sweep);
    var t' := ClosePosition(cfg, exec, t, x, now, Sweep);
    forall k ensures Lifetime.At(t'.positions, k) == SweptAt(cfg, exec, book, order, now, k) {
      assert k in order <==> k in front || k == m;
      assert Lifetime.At(t.positions, k) == SweptAt(cfg, exec, book, front, now, k);
    }
  }

  lemma OneExit(cfg: Config, exec: Executor, s: State, t: State, front: seq<Mint>,
      m: Mint, now: Time)
    requires IdBlind(exec) && Coherent(s) && m !in front && m in s.positions
    requires Expired(cfg, s.positions[m], now).Some?
    requires Swept(cfg, exec, s, front, now, t)
    ensures Swept(cfg, exec, s, front + [m], now,
      ClosePosition(cfg, exec, t, ExitOf(cfg, s.positions[m], now), now, Sweep))
  {
    hide Expired, ClosePosition, Combine, EffectAt, SweptMoney, SweptBook, TradeOf, ExitOf;
    assert (front + [m])[..|front|] == front;
    ExitMoney(cfg, exec, s, t, EffectOf(cfg, exec, s.positions, front, now), ExitOf(cfg, s.positions[m], now), now);
    ExitBook(cfg, exec, s, t, front, m, now);
  }

  lemma {:induction false} SweepClosedForm(cfg: Config, exec: Executor, s: State, order: seq<Mint>, now: Time)
    requires IdBlind(exec) && Coherent(s) && Distinct(order)
    ensures Swept(cfg, exec, s, order, now, CloseAll(cfg, exec, s, Collect(cfg, s.positions, order, now), now))
    decreases |order|
  {
    hide Expired, ClosePosition, Swept;
    if order == [] {
      EmptySweep(cfg, exec, s, now);
    } else {
      var front, m := order[..|order| - 1], order[|order| - 1];
      assert order == front + [m];
      SweepClosedForm(cfg, exec, s, front, now);
      var exits := Collect(cfg, s.positions, front, now);
      if m in s.positions && Expired(cfg, s.positions[m], now).Some? {
        var x := ExitOf(cfg, s.positions[m], now);
        CloseAllSnoc(cfg, exec, s, exits, x, now);
        OneExit(cfg, exec, s, CloseAll(cfg, exec, s, exits, now), front, m, now);
      } else {
        KeptToken(cfg, exec, s, CloseAll(cfg, exec, s, exits, now), front, m, now);
      }
    }
  }

  lemma EmptySweep(cfg: Config, exec: Executor, s: State, now: Time)
    ensures Swept(cfg, exec, s, [], now, s)
  {
    hide OutcomeOf;
    assert s.controls.state.recentOrders + seq(0, _ => now) == s.controls.state.recentOrders;
  }

  lemma KeptToken(cfg: Config, exec: Executor, s: State, t: State, front: seq<Mint>,
      m: Mint, now: Time)
    requires Swept(cfg, exec, s, front, now, t) && OutcomeOf(cfg, exec, s.positions, m, now) == Kept
    ensures Swept(cfg, exec, s, front + [m], now, t)
  {
    hide OutcomeOf, SweptMoney, Combine;
    var order := front + [m];
    assert order[..|front|] == front;
    CombineNothing(EffectOf(cfg, exec, s.positions, front, now));
    forall k ensures SweptAt(cfg, exec, s.positions, order, now, k) == SweptAt(cfg, exec, s.positions, front, now, k) {
      assert k in order <==> k in front || k == m;
    }
  }

  lemma CombineNothing(e: Effect)
    ensures Combine(e, NOTHING) == e
  {}

  /** Equal but for the latch, the tape and the order of the closed trades. */
  ghost predicate SameOutcome(a: State, b: State) {
    && a.equity == b.equity
    && a.deployed == b.deployed
    && a.positions == b.positions
    && multiset(a.closed) == multiset(b.closed)
    && a.orderSeq == b.orderSeq
    && a.controls.openPositions == b.controls.openPositions
    && Unlatched(a.controls.state) == Unlatched(b.controls.state)
  }

  /** Sweep confluence. With an executor that answers by content, sweeping the open positions in
      any two orders gives the same equity, deployed capital, book, order count, day P&L, order
      window and multiset of closed trades. */
  lemma SweepIsConfluent(cfg: Config, exec: Executor, s: State, order: seq<Mint>,
      other: seq<Mint>, now: Time)
    requires IdBlind(exec) && Coherent(s)
    requires Enumerates(order, s.positions.Keys) && Enumerates(other, s.positions.Keys)
    ensures SameOutcome(SweepTimeStops(cfg, exec, s, order, now), SweepTimeStops(cfg, exec, s, other, now))
  {
    hide CloseAll, Collect, OutcomeOf, SweptControls;
    var a, b := SweepTimeStops(cfg, exec, s, order, now), SweepTimeStops(cfg, exec, s, other, now);
    SweepClosedForm(cfg, exec, s, order, now);
    SweepClosedForm(cfg, exec, s, other, now);
    EnumerationsAgree(order, other, s.positions.Keys);
    EffectIgnoresOrder(cfg, exec, s.positions, order, other, now);
    SweepKeepsCoherent(cfg, exec, s, order, now);
    SweepKeepsCoherent(cfg, exec, s, other, now);
    forall m ensures Lifetime.At(a.positions, m) == Lifetime.At(b.positions, m) {
      assert Lifetime.At(a.positions, m) == SweptAt(cfg, exec, s.positions, order, now, m);
      assert Lifetime.At(b.positions, m) == SweptAt(cfg, exec, s.positions, other, now, m);
    }
    AgreeingBooks(a.positions, b.positions);
  }

  lemma AgreeingBooks(a: map<Mint, Position>, b: map<Mint, Position>)
    requires forall m :: Lifetime.At(a, m) == Lifetime.At(b, m)
    ensures a == b
  {
    forall m ensures m in a <==> m in b {
      assert Lifetime.At(a, m) == Lifetime.At(b, m);
    }
    forall m | m in a ensures a[m] == b[m] {
      assert Lifetime.At(a, m) == Lifetime.At(b, m);
    }
  }
}
