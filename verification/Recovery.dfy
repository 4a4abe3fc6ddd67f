/** Restores from older snapshots. Snapshots are saved on a timer, so a crash can lose the orders sent
    since the last one; the entry throttle then overshoots by at most the orders lost. */
module Recovery {
  import opened Domain
  import opened Machine
  import opened Moves
  import opened Persist
  import opened Throttle
  import Exits
  import Resume

  /** What can happen to a deployment: an event, answered by any executor, or a crash and a restore at
      some boot time from the snapshot captured after the first `saved` happenings. */
  datatype Happening =
    | Occurs(step: Step, exec: Executor)
    | Restored(saved: nat, reboot: Time, snap: EngineState)

  /** The state of the deployment. Its tape is everything that was really sent, lost or not. */
  ghost function After(cfg: Config, boot: Time, days: seq<Happening>): State
    requires cfg.Valid()
  {
    if days == [] then Initial(cfg, boot)
    else
      var before := After(cfg, boot, days[..|days| - 1]);
      match days[|days| - 1]
      case Occurs(step, exec) => OnEvent(cfg, exec, before, step)
      case Restored(_, reboot, snap) => Resumed(cfg, reboot, snap, before.tape)
  }

  ghost predicate Possible(cfg: Config, boot: Time, days: seq<Happening>)
    requires cfg.Valid()
  {
    days == [] ||
      var front := days[..|days| - 1];
      && Possible(cfg, boot, front)
      && match days[|days| - 1]
         case Occurs(step, exec) => Legal(cfg, exec, After(cfg, boot, front), step)
         case Restored(saved, _, snap) => saved <= |front| && SnapshotOf(After(cfg, boot, days[..saved]), snap)
  }

  /** The time of the latest event. */
  function Latest(start: Time, days: seq<Happening>): Time {
    if days == [] then start
    else
      match days[|days| - 1]
      case Occurs(step, _) => step.ev.Ts()
      case Restored(_, _, _) => Latest(start, days[..|days| - 1])
  }

  /** Event times never decrease. */
  ghost predicate InTime(start: Time, days: seq<Happening>) {
    days == [] ||
      var front := days[..|days| - 1];
      && InTime(start, front)
      && (days[|days| - 1].Occurs? ==> Latest(start, front) <= days[|days| - 1].step.ev.Ts())
  }

  /** What the deployment sent and the restored engine no longer knows about. */
  ghost function Lost(cfg: Config, boot: Time, days: seq<Happening>): seq<Entry>
    requires cfg.Valid()
  {
    if days == [] then []
    else
      var front := days[..|days| - 1];
      match days[|days| - 1]
      case Occurs(_, _) => Lost(cfg, boot, front)
      case Restored(saved, _, _) =>
        Lost(cfg, boot, front)
          + if saved <= |front| then Since(After(cfg, boot, days[..saved]).tape, After(cfg, boot, front).tape) else []
  }

  /** The part of `tape` after its beginning `known`. */
  function Since(known: seq<Entry>, tape: seq<Entry>): seq<Entry> {
    if |known| <= |tape| then tape[|known|..] else []
  }

  /** Between two moments the tape and the losses only grow, and time does not go back. */
  lemma {:induction false} DaysGrow(cfg: Config, boot: Time, start: Time, days: seq<Happening>, k: nat)
    requires cfg.Valid() && k <= |days| && InTime(start, days)
    ensures InTime(start, days[..k]) && Latest(start, days[..k]) <= Latest(start, days)
    ensures After(cfg, boot, days[..k]).tape <= After(cfg, boot, days).tape
    ensures Lost(cfg, boot, days[..k]) <= Lost(cfg, boot, days)
    decreases |days|
  {
    if k == |days| {
      assert days[..k] == days;
    } else {
      var front := days[..|days| - 1];
      assert front[..k] == days[..k];
      DaysGrow(cfg, boot, start, front, k);
      if days[|days| - 1].Occurs? {
        Exits.EventExtends(cfg, days[|days| - 1].exec, After(cfg, boot, front), days[|days| - 1].step);
      }
    }
  }

  lemma {:induction false} CountsAppend(a: seq<Entry>, b: seq<Entry>, v: Time)
    ensures FreshOrders(a + b, v) == FreshOrders(a, v) + FreshOrders(b, v)
    ensures OrdersIn(a + b, v) == OrdersIn(a, v) + OrdersIn(b, v)
    decreases |b|
  {
    if b == [] {
      assert a + b == a;
    } else {
      CountsAppend(a, b[..|b| - 1], v);
      assert (a + b)[..|a + b| - 1] == a + b[..|b| - 1];
    }
  }

  /** A longer history counts at least as much. */
  lemma CountsGrow(a: seq<Entry>, b: seq<Entry>, v: Time)
    requires a <= b
    ensures FreshOrders(a, v) <= FreshOrders(b, v) && OrdersIn(a, v) <= OrdersIn(b, v)
  {
    assert b == a + b[|a|..];
    CountsAppend(a, b[|a|..], v);
  }

  /** Restoring an older state loses the orders since. */
  lemma RestoreKeepsThrottled(cfg: Config, before: State, t: Time, lost: seq<Entry>,
      known: State, t0: Time, lost0: seq<Entry>, s': State)
    requires ThrottledBut(cfg, before, t, lost) && ThrottledBut(cfg, known, t0, lost0)
    requires t0 <= t && known.tape <= before.tape && lost0 <= lost
    requires s'.tape == before.tape && s'.controls.state.recentOrders == known.controls.state.recentOrders
    ensures ThrottledBut(cfg, s', t, lost + Since(known.tape, before.tape))
  {
    hide CountsFit;
    var since := Since(known.tape, before.tape);
    var times := known.controls.state.recentOrders;
    assert before.tape == known.tape + since;
    forall v | t <= v
      ensures FreshTimes(times, v) <= FreshOrders(s'.tape, v) <= FreshTimes(times, v) + FreshOrders(lost + since, v)
    {
      CountsAppend(known.tape, since, v);
      CountsAppend(lost, since, v);
      CountsGrow(lost0, lost, v);
    }
    forall u ensures OrdersIn(lost, u) <= OrdersIn(lost + since, u) {
      CountsGrow(lost, lost + since, u);
    }
    assert forall i :: 0 <= i < |since| ==> since[i] == before.tape[|known.tape| + i];
  }

  lemma {:induction false} DaysAreThrottled(cfg: Config, boot: Time, start: Time, days: seq<Happening>)
    requires cfg.Valid() && Possible(cfg, boot, days) && InTime(start, days)
    ensures Coherent(After(cfg, boot, days))
    ensures ThrottledBut(cfg, After(cfg, boot, days), Latest(start, days), Lost(cfg, boot, days))
    decreases |days|
  {
    hide ThrottledBut, SnapshotOf, OnEvent;
    if days == [] {
      assert ThrottledBut(cfg, Initial(cfg, boot), start, []) by { NothingSent(cfg, boot, start); }
    } else {
      var front := days[..|days| - 1];
      var before, t, lost := After(cfg, boot, front), Latest(start, front), Lost(cfg, boot, front);
      DaysAreThrottled(cfg, boot, start, front);
      match days[|days| - 1]
      case Occurs(step, exec) =>
        ThrottledIsInductive(cfg, exec, lost);
        var inv := (s: State, u: Time) => ThrottledBut(cfg, s, u, lost);
        assert inv(before, t);
        EventKeeps(cfg, exec, inv, true, before, t, step);
        assert inv(OnEvent(cfg, exec, before, step), step.ev.Ts());
      case Restored(saved, reboot, snap) =>
        assert days[..saved] == front[..saved];
        var known := After(cfg, boot, days[..saved]);
        DaysGrow(cfg, boot, start, front, saved);
        PossiblePrefix(cfg, boot, front, saved);
        DaysAreThrottled(cfg, boot, start, days[..saved]);
        Resume.SnapshotRebuildsBook(known, snap);
        RestoredWindow(cfg, known, reboot, snap, before.tape);
        RestoreKeepsThrottled(cfg, before, t, lost, known, Latest(start, days[..saved]), Lost(cfg, boot, days[..saved]),
                              Resumed(cfg, reboot, snap, before.tape));
    }
  }

  lemma RestoredWindow(cfg: Config, known: State, reboot: Time, snap: EngineState, tape: seq<Entry>)
    requires SnapshotOf(known, snap) && Coherent(known) && BookOf(snap.positions) == known.positions
    ensures var s := Resumed(cfg, reboot, snap, tape);
      && s.tape == tape && s.controls.state.recentOrders == known.controls.state.recentOrders
      && Coherent(s)
  {}

  lemma NothingSent(cfg: Config, boot: Time, start: Time)
    ensures ThrottledBut(cfg, Initial(cfg, boot), start, [])
  {}

  lemma {:induction false} PossiblePrefix(cfg: Config, boot: Time, days: seq<Happening>, k: nat)
    requires cfg.Valid() && k <= |days| && Possible(cfg, boot, days)
    ensures Possible(cfg, boot, days[..k])
    decreases |days|
  {
    if k == |days| {
      assert days[..k] == days;
    } else {
      assert days[..|days| - 1][..k] == days[..k];
      PossiblePrefix(cfg, boot, days[..|days| - 1], k);
    }
  }

  /** The rate limit with stale restores. Over any deployment with nondecreasing event times, that
      crashes any number of times and is restored from snapshots however known, every window of a
      minute contains at most the configured number of submitted buys plus the orders sent in it that
      a restore forgot; if no order was lost, the limit itself holds. */
  lemma StaleRestoresOvershootByTheLost(cfg: Config, boot: Time, start: Time, days: seq<Happening>, u: Time)
    requires cfg.Valid() && Possible(cfg, boot, days) && InTime(start, days)
    ensures var tape, lost := After(cfg, boot, days).tape, Lost(cfg, boot, days);
      CountsFit(tape) ==>
        && BuysIn(tape, u) <= cfg.maxTradesPerMin + OrdersIn(lost, u)
        && ((forall e :: e in lost ==> e.Ticked?) ==> BuysIn(tape, u) <= cfg.maxTradesPerMin)
  {
    hide CountsFit, Possible, InTime, After, Lost;
    DaysAreThrottled(cfg, boot, start, days);
    if forall e :: e in Lost(cfg, boot, days) ==> e.Ticked? {
      TicksAreNoOrders(Lost(cfg, boot, days), u);
    }
  }

  /** If only ticks were lost, nothing is added to the limit. */
  lemma {:induction false} TicksAreNoOrders(lost: seq<Entry>, u: Time)
    requires forall e :: e in lost ==> e.Ticked?
    ensures OrdersIn(lost, u) == 0
  {
    if lost != [] {
      assert lost[|lost| - 1] in lost;
      TicksAreNoOrders(lost[..|lost| - 1], u);
    }
  }
}
