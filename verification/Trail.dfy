/** Consequences of the closed form: the trailing stop, and the bound on blind resubmission. */
module Trail {
  import opened Domain
  import opened Machine
  import opened Moves
  import opened Execution
  import opened Lifetime
  import Strategy

  lemma {:induction false} MaxBounds(xs: seq<real>, i: nat)
    requires i < |xs|
    ensures xs[i] <= MaxOf(xs)
  {
    if i < |xs| - 1 {
      MaxBounds(xs[..|xs| - 1], i);
    }
  }

  lemma {:induction false} MaxGrows(xs: seq<real>, ys: seq<real>)
    requires xs != [] && xs <= ys
    ensures MaxOf(xs) <= MaxOf(ys)
    decreases |ys|
  {
    if |xs| < |ys| {
      MaxGrows(xs, ys[..|ys| - 1]);
    } else {
      assert xs == ys;
    }
  }

  lemma {:induction false} MarksGrow(a: seq<Entry>, b: seq<Entry>)
    requires a <= b
    ensures Marks(a) <= Marks(b)
    decreases |b|
  {
    if |a| < |b| {
      MarksGrow(a, b[..|b| - 1]);
    } else {
      assert a == b;
    }
  }

  lemma {:induction false} TicksAreMarked(life: seq<Entry>, i: nat)
    requires i < |life| && life[i].Ticked?
    ensures life[i].priceUsd in Marks(life)
  {
    if i < |life| - 1 {
      TicksAreMarked(life[..|life| - 1], i);
    }
  }

  lemma BreakoutPrice(cfg: Config, p: Position, price: real)
    requires p.entryPrice > 0.0 && p.UnrealizedPnlPct(price) >= cfg.convictionMinPct
    ensures price >= BreakoutLevel(cfg, p)
  {
    var entry, c := p.entryPrice, cfg.convictionMinPct / 100.0;
    var gain := (price - entry) / entry;
    assert entry * gain == price - entry;
    assert entry * (gain - c) >= 0.0;
    assert entry * (gain - c) == entry * gain - entry * c;
    assert entry * (1.0 + c) == entry + entry * c;
  }

  /** The price at which the position is promoted to conviction. */
  function BreakoutLevel(cfg: Config, p: Position): real {
    p.entryPrice * (1.0 + cfg.convictionMinPct / 100.0)
  }

  /** A price less the trail. */
  function Trailed(cfg: Config, price: real): real {
    price * (1.0 - cfg.trailPct / 100.0)
  }

  lemma TrailedMonotone(cfg: Config, low: real, high: real)
    requires cfg.trailPct <= 100.0 && low <= high
    ensures Trailed(cfg, low) <= Trailed(cfg, high)
  {
    var k := 1.0 - cfg.trailPct / 100.0;
    assert (high - low) * k >= 0.0;
    assert (high - low) * k == high * k - low * k;
  }

  /** A conviction position has banked its breakout: its trailing stop is at least the promotion
      level less the trail, the level entry * (1 + c) * (1 - t). */
  lemma TrailKeepsTheBreakout(cfg: Config, exec: Executor, boot: Time, steps: seq<Step>, m: Mint)
    requires cfg.Valid() && cfg.trailPct <= 100.0
    requires Faithful(exec) && LegalRun(cfg, exec, Initial(cfg, boot), steps)
    ensures var s := Run(cfg, exec, Initial(cfg, boot), steps);
      m in s.positions && s.positions[m].mode == Conviction ==>
        Strategy.TrailStop(cfg, s.positions[m]) >= Trailed(cfg, BreakoutLevel(cfg, s.positions[m]))
  {
    hide Run, LegalRun;
    var s := Run(cfg, exec, Initial(cfg, boot), steps);
    PositionClosedForm(cfg, exec, boot, steps, m);
    if m in s.positions && s.positions[m].mode == Conviction {
      var p := s.positions[m];
      HighWaterBanked(cfg, LifeOf(s.tape, m), p);
      TrailedMonotone(cfg, BreakoutLevel(cfg, p), p.highWater);
    }
  }

  lemma HighWaterBanked(cfg: Config, life: seq<Entry>, p: Position)
    requires Tells(cfg, life, p) && p.mode == Conviction
    ensures p.highWater >= BreakoutLevel(cfg, p)
  {
    hide GainPct;
    if p.entryPrice == 0.0 {
      return;
    }
    var i :| 0 <= i < |life| && Breakout(cfg, p.entryPrice, life[i]);
    TicksAreMarked(life, i);
    var marks := Marks(life);
    var k :| 0 <= k < |marks| && marks[k] == life[i].priceUsd;
    MaxBounds(marks, k);
    BreakoutPrice(cfg, p, life[i].priceUsd);
  }

  lemma {:induction false} LegalPrefix(cfg: Config, exec: Executor, s: State, steps: seq<Step>, k: nat)
    requires cfg.Valid() && LegalRun(cfg, exec, s, steps) && k <= |steps|
    ensures LegalRun(cfg, exec, s, steps[..k])
    decreases |steps|
  {
    if k < |steps| {
      var front := steps[..|steps| - 1];
      LegalPrefix(cfg, exec, s, front, k);
      assert front[..k] == steps[..k];
    } else {
      assert steps[..k] == steps;
    }
  }

  /** `m` is held in both states, and has not been closed in between. */
  predicate SameLife(before: State, after: State, m: Mint) {
    m in before.positions && m in after.positions && LifeOf(before.tape, m) <= LifeOf(after.tape, m)
  }

  /** The trail never falls: at two moments of a run within one life of a position, the later
      trailing stop is at least the earlier one. */
  lemma TrailNeverFalls(cfg: Config, exec: Executor, boot: Time, steps: seq<Step>,
      k: nat, m: Mint)
    requires cfg.Valid() && cfg.trailPct <= 100.0
    requires Faithful(exec) && LegalRun(cfg, exec, Initial(cfg, boot), steps) && k <= |steps|
    ensures var before := Run(cfg, exec, Initial(cfg, boot), steps[..k]);
      var after := Run(cfg, exec, Initial(cfg, boot), steps);
      SameLife(before, after, m) ==>
        Strategy.TrailStop(cfg, before.positions[m]) <= Strategy.TrailStop(cfg, after.positions[m])
  {
    hide Run, LegalRun, Tells;
    var before := Run(cfg, exec, Initial(cfg, boot), steps[..k]);
    var after := Run(cfg, exec, Initial(cfg, boot), steps);
    LegalPrefix(cfg, exec, Initial(cfg, boot), steps, k);
    PositionClosedForm(cfg, exec, boot, steps[..k], m);
    PositionClosedForm(cfg, exec, boot, steps, m);
    if SameLife(before, after, m) {
      LongerLifeHigherTrail(cfg, LifeOf(before.tape, m), before.positions[m],
                            LifeOf(after.tape, m), after.positions[m]);
    }
  }

  lemma LongerLifeHigherTrail(cfg: Config, life: seq<Entry>, p: Position,
      longer: seq<Entry>, q: Position)
    requires cfg.trailPct <= 100.0 && life <= longer && Tells(cfg, life, p) && Tells(cfg, longer, q)
    ensures Strategy.TrailStop(cfg, p) <= Strategy.TrailStop(cfg, q)
  {
    hide Breakout;
    MarksGrow(life, longer);
    MaxGrows(Marks(life), Marks(longer));
    TrailedMonotone(cfg, p.highWater, q.highWater);
  }

  // ---- Bounded resubmission ----

  predicate IsSweepSell(e: Entry) { e.Traded? && e.order.SellOrder? && e.cause == Sweep }

  function SweepSells(life: seq<Entry>): nat {
    if life == [] then 0
    else SweepSells(life[..|life| - 1]) + if IsSweepSell(life[|life| - 1]) then 1 else 0
  }

  predicate NoFilledSell(life: seq<Entry>) {
    forall i :: 0 <= i < |life| && life[i].Traded? && life[i].order.SellOrder? ==> life[i].reply.Failed?
  }

  lemma {:induction false} LifeHasNoFilledSell(tape: seq<Entry>, m: Mint)
    ensures NoFilledSell(LifeOf(tape, m))
  {
    if tape != [] {
      LifeHasNoFilledSell(tape[..|tape| - 1], m);
    }
  }

  lemma {:induction false} SweepsAreFailures(life: seq<Entry>)
    requires NoFilledSell(life)
    ensures SweepSells(life) <= FailedSells(life)
  {
    if life != [] {
      SweepsAreFailures(life[..|life| - 1]);
    }
  }

  /** At every sweep sell recorded so far, fewer than the limit had been sent in that life. */
  ghost predicate SweepsBounded(cfg: Config, tape: seq<Entry>) {
    forall k :: 0 <= k < |tape| && IsSweepSell(tape[k]) ==>
      SweepSells(LifeOf(tape[..k], tape[k].order.mint)) < cfg.maxExitAttempts
  }

  lemma BoundedSnoc(cfg: Config, tape: seq<Entry>, e: Entry)
    requires SweepsBounded(cfg, tape)
    requires IsSweepSell(e) ==> SweepSells(LifeOf(tape, e.order.mint)) < cfg.maxExitAttempts
    ensures SweepsBounded(cfg, tape + [e])
  {
    var longer := tape + [e];
    forall k | 0 <= k < |longer| && IsSweepSell(longer[k])
      ensures SweepSells(LifeOf(longer[..k], longer[k].order.mint)) < cfg.maxExitAttempts
    {
      if k < |tape| {
        assert longer[..k] == tape[..k];
      } else {
        assert longer[..k] == tape;
      }
    }
  }

  ghost predicate Resubmission(cfg: Config, s: State) {
    SweepsBounded(cfg, s.tape) && forall m :: LifeInv(cfg, m, s)
  }

  lemma MoveKeepsResubmission(cfg: Config, exec: Executor, s: State, mv: Move)
    requires cfg.Valid() && Faithful(exec) && Resubmission(cfg, s) && Coherent(s) && Enabled(cfg, s, mv)
    ensures Resubmission(cfg, Apply(cfg, exec, s, mv))
  {
    forall m ensures LifeInv(cfg, m, Apply(cfg, exec, s, mv)) {
      assert LifeInv(cfg, m, s);
      MoveKeepsLife(cfg, exec, m, s, mv);
    }
    MoveKeepsSweeps(cfg, exec, s, mv);
  }

  lemma MoveKeepsSweeps(cfg: Config, exec: Executor, s: State, mv: Move)
    requires Faithful(exec) && Resubmission(cfg, s) && Enabled(cfg, s, mv)
    ensures SweepsBounded(cfg, Apply(cfg, exec, s, mv).tape)
  {
    hide LifeInv, SweepsBounded, SubmitSlice, ClosePosition, Ruled, Risk.Settle, Risk.LossLimit;
    match mv
    case Settling(_) =>
    case Slicing(l, slice) =>
      assert FaithfulAt(exec, SliceOrder(cfg, s, l, slice));
      SliceOutcome(cfg, exec, s, l, slice);
      BoundedSnoc(cfg, s.tape, Traded(SliceOrder(cfg, s, l, slice), exec(SliceOrder(cfg, s, l, slice)), Funnel));
    case Ticking(pu) =>
      BoundedSnoc(cfg, s.tape, Ticked(pu.mint, pu.priceUsd, pu.liquidityUsd, pu.ts));
    case Selling(x, now, cause) =>
      ExitOutcome(cfg, exec, s, x, now, cause);
      var order := ExitOrder(s.orderSeq + 1, x, now);
      if cause == Sweep {
        SweepStartsBelowLimit(cfg, s, x.mint, now);
      }
      BoundedSnoc(cfg, s.tape, Traded(order, exec(order), cause));
  }

  lemma SweepStartsBelowLimit(cfg: Config, s: State, m: Mint, now: Time)
    requires m in s.positions && LifeInv(cfg, m, s) && Expired(cfg, s.positions[m], now).Some?
    ensures SweepSells(LifeOf(s.tape, m)) < cfg.maxExitAttempts
  {
    LifeHasNoFilledSell(s.tape, m);
    SweepsAreFailures(LifeOf(s.tape, m));
  }

  /** Bounded resubmission. In one life of a position the time-stop sweep submits at most the
      configured number of sells, however many events arrive: whenever it submits one, fewer than
      that many have been submitted since the position was opened. */
  lemma SweepResubmissionIsBounded(cfg: Config, exec: Executor, boot: Time,
      steps: seq<Step>, k: nat)
    requires cfg.Valid() && Faithful(exec) && LegalRun(cfg, exec, Initial(cfg, boot), steps)
    requires k < |Run(cfg, exec, Initial(cfg, boot), steps).tape|
    requires IsSweepSell(Run(cfg, exec, Initial(cfg, boot), steps).tape[k])
    ensures var tape := Run(cfg, exec, Initial(cfg, boot), steps).tape;
      SweepSells(LifeOf(tape[..k], tape[k].order.mint)) < cfg.maxExitAttempts
  {
    forall s: State, mv: Move | Resubmission(cfg, s) && Coherent(s) && Enabled(cfg, s, mv)
      ensures Resubmission(cfg, Apply(cfg, exec, s, mv))
    {
      MoveKeepsResubmission(cfg, exec, s, mv);
    }
    var inv := (s: State, _: Time) => Resubmission(cfg, s);
    assert inv(Initial(cfg, boot), boot);
    RunKeeps(cfg, exec, inv, false, Initial(cfg, boot), boot, steps);
    assert inv(Run(cfg, exec, Initial(cfg, boot), steps), LastTs(boot, steps));
  }
}
