/** Crash and resume: a restored engine is the engine that crashed. */
module Resume {
  import opened Domain
  import opened Risk
  import opened Machine
  import opened Persist
  import opened Moves
  import Breaker
  import Conservation
  import Execution
  import Exits
  import Ledger
  import Lifetime
  import Ordering
  import Throttle

  lemma {:induction false} BookFindsListed(positions: seq<Position>, i: nat)
    requires i < |positions| && Distinct(MintsOf(positions))
    ensures positions[i].mint in BookOf(positions) && BookOf(positions)[positions[i].mint] == positions[i]
  {
    var last := |positions| - 1;
    var mints := MintsOf(positions);
    assert forall k :: 0 <= k < |positions| ==> mints[k] == positions[k].mint;
    if i < last {
      var front := positions[..last];
      assert MintsOf(front) == mints[..last];
      BookFindsListed(front, i);
      assert mints[i] != mints[last];
    }
  }

  /** Filing the listed positions again rebuilds the book. */
  lemma SnapshotRebuildsBook(s: State, snap: EngineState)
    requires Coherent(s) && SnapshotOf(s, snap)
    ensures BookOf(snap.positions) == s.positions
  {
    var book := BookOf(snap.positions);
    Ordering.IncreasingDistinct(MintsOf(snap.positions));
    BookIsFiled(snap.positions);
    forall m ensures m in s.positions ==> m in book && book[m] == s.positions[m] {
      if m in s.positions {
        assert s.positions[m] in s.positions.Values;
        var i :| 0 <= i < |snap.positions| && snap.positions[i] == s.positions[m];
        BookFindsListed(snap.positions, i);
      }
    }
    forall m ensures m in book ==> m in s.positions {
      if m in book {
        assert book[m] in s.positions.Values;
      }
    }
  }

  /** A kill switch set in the configuration is never off in a running engine. */
  predicate KillKept(cfg: Config, s: State) { cfg.killSwitch ==> s.controls.state.kill }

  lemma MoveKeepsKill(cfg: Config, exec: Executor, s: State, mv: Move)
    requires KillKept(cfg, s) && Enabled(cfg, s, mv)
    ensures KillKept(cfg, Apply(cfg, exec, s, mv))
  {
    hide TradeOf, CountFailure, AddFill, Ruled, LossLimit;
  }

  lemma RunKeepsKill(cfg: Config, exec: Executor, boot: Time, steps: seq<Step>)
    requires cfg.Valid() && LegalRun(cfg, exec, Initial(cfg, boot), steps)
    ensures KillKept(cfg, Run(cfg, exec, Initial(cfg, boot), steps))
  {
    forall s: State, mv: Move | KillKept(cfg, s) && Coherent(s) && Enabled(cfg, s, mv)
      ensures KillKept(cfg, Apply(cfg, exec, s, mv))
    {
      MoveKeepsKill(cfg, exec, s, mv);
    }
    var inv := (s: State, _: Time) => KillKept(cfg, s);
    assert inv(Initial(cfg, boot), boot);
    RunKeeps(cfg, exec, inv, false, Initial(cfg, boot), boot, steps);
    assert inv(Run(cfg, exec, Initial(cfg, boot), steps), LastTs(boot, steps));
  }

  /** Resume is exact: restoring any snapshot of a reachable engine under the same configuration,
      at any boot time, yields that engine's state field for field, although the position count is
      recomputed, the kill flag is or-ed and the book is rebuilt from a sorted list. */
  lemma ResumeIsExact(cfg: Config, exec: Executor, boot: Time, steps: seq<Step>,
      reboot: Time, snap: EngineState)
    requires cfg.Valid() && LegalRun(cfg, exec, Initial(cfg, boot), steps)
    requires SnapshotOf(Run(cfg, exec, Initial(cfg, boot), steps), snap)
    ensures var s := Run(cfg, exec, Initial(cfg, boot), steps);
      Resumed(cfg, reboot, snap, s.tape) == s
  {
    hide Run, LegalRun;
    RunIsCoherent(cfg, exec, boot, steps);
    RunKeepsKill(cfg, exec, boot, steps);
    SnapshotRebuildsBook(Run(cfg, exec, Initial(cfg, boot), steps), snap);
  }

  /** The snapshot of a reachable engine is accepted exactly if no open position is empty; with no
      assumption on the executor, the other money invariants cannot fail. */
  lemma SnapshotAcceptedIff(cfg: Config, exec: Executor, boot: Time,
      steps: seq<Step>, reboot: Time, snap: EngineState)
    requires cfg.Valid() && LegalRun(cfg, exec, Initial(cfg, boot), steps)
    requires SnapshotOf(Run(cfg, exec, Initial(cfg, boot), steps), snap)
    ensures var s := Run(cfg, exec, Initial(cfg, boot), steps);
      Sound(cfg, Resumed(cfg, reboot, snap, s.tape)) <==>
        forall m :: m in s.positions ==> Holds(s.positions[m])
  {
    hide Run, LegalRun;
    ResumeIsExact(cfg, exec, boot, steps, reboot, snap);
    Conservation.LedgerConservation(cfg, exec, boot, steps);
  }

  /** If every buy fill the run got was worth recording, its snapshot is accepted. */
  lemma SubstantialSnapshotsAreAccepted(cfg: Config, exec: Executor, boot: Time,
      steps: seq<Step>, reboot: Time, snap: EngineState)
    requires cfg.Valid() && Execution.Faithful(exec) && LegalRun(cfg, exec, Initial(cfg, boot), steps)
    requires SnapshotOf(Run(cfg, exec, Initial(cfg, boot), steps), snap)
    ensures var s := Run(cfg, exec, Initial(cfg, boot), steps);
      Lifetime.FillsAreSubstantial(s.tape) ==> Sound(cfg, Resumed(cfg, reboot, snap, s.tape))
  {
    hide Run, LegalRun, Sound, Lifetime.FillsAreSubstantial;
    SnapshotAcceptedIff(cfg, exec, boot, steps, reboot, snap);
    var s := Run(cfg, exec, Initial(cfg, boot), steps);
    if Lifetime.FillsAreSubstantial(s.tape) {
      forall m | m in s.positions ensures Holds(s.positions[m]) {
        Lifetime.PositionsAreSubstantial(cfg, exec, boot, steps, m);
      }
    }
  }

  // ---- Runs with crashes ----

  /** What can happen to a deployment: an event, or a crash after which the engine is restored at
      some boot time from a snapshot taken just before, which the restore has to accept. */
  datatype Happening = Occurs(step: Step) | Crashes(reboot: Time, snap: EngineState)

  function Survive(cfg: Config, exec: Executor, s: State, days: seq<Happening>): State
    requires cfg.Valid()
  {
    if days == [] then s
    else
      var before := Survive(cfg, exec, s, days[..|days| - 1]);
      match days[|days| - 1]
      case Occurs(step) => OnEvent(cfg, exec, before, step)
      case Crashes(reboot, snap) => Resumed(cfg, reboot, snap, before.tape)
  }

  /** Every event is swept in some order of the open positions, and every snapshot was captured
      just before its crash. */
  ghost predicate Captured(cfg: Config, exec: Executor, s: State, days: seq<Happening>)
    requires cfg.Valid()
  {
    days == [] ||
      var front := days[..|days| - 1];
      var before := Survive(cfg, exec, s, front);
      && Captured(cfg, exec, s, front)
      && match days[|days| - 1]
         case Occurs(step) => Legal(cfg, exec, before, step)
         case Crashes(_, snap) => SnapshotOf(before, snap)
  }

  /** No restore refuses its snapshot. */
  ghost predicate Accepted(cfg: Config, exec: Executor, s: State, days: seq<Happening>)
    requires cfg.Valid()
  {
    days == [] ||
      var front := days[..|days| - 1];
      && Accepted(cfg, exec, s, front)
      && match days[|days| - 1]
         case Occurs(_) => true
         case Crashes(reboot, snap) =>
           Sound(cfg, Resumed(cfg, reboot, snap, Survive(cfg, exec, s, front).tape))
  }

  /** The events alone. */
  function EventsOf(days: seq<Happening>): seq<Step> {
    if days == [] then []
    else
      var front := EventsOf(days[..|days| - 1]);
      match days[|days| - 1]
      case Occurs(step) => front + [step]
      case Crashes(_, _) => front
  }

  /** Crashes are invisible. A deployment that crashes and is restored any number of times, at any
      moments between events, ends in exactly the state of one that never stopped. */
  lemma {:induction false} CrashesAreInvisible(cfg: Config, exec: Executor, boot: Time, days: seq<Happening>)
    requires cfg.Valid()
    requires Captured(cfg, exec, Initial(cfg, boot), days) && Accepted(cfg, exec, Initial(cfg, boot), days)
    ensures LegalRun(cfg, exec, Initial(cfg, boot), EventsOf(days))
    ensures Survive(cfg, exec, Initial(cfg, boot), days) == Run(cfg, exec, Initial(cfg, boot), EventsOf(days))
    decreases |days|
  {
    if days != [] {
      var front := days[..|days| - 1];
      CrashesAreInvisible(cfg, exec, boot, front);
      match days[|days| - 1]
      case Occurs(step) =>
        var steps := EventsOf(days);
        assert steps[..|steps| - 1] == EventsOf(front) && steps[|steps| - 1] == step;
      case Crashes(reboot, snap) =>
        ResumeIsExact(cfg, exec, boot, EventsOf(front), reboot, snap);
    }
  }

  /** A captured deployment whose buy fills were all worth recording is never refused a restore,
      however often it crashes. */
  lemma {:induction false} RestoresAreAccepted(cfg: Config, exec: Executor, boot: Time, days: seq<Happening>)
    requires cfg.Valid() && Execution.Faithful(exec) && Captured(cfg, exec, Initial(cfg, boot), days)
    requires Lifetime.FillsAreSubstantial(Survive(cfg, exec, Initial(cfg, boot), days).tape)
    ensures Accepted(cfg, exec, Initial(cfg, boot), days)
    decreases |days|
  {
    if days != [] {
      var front := days[..|days| - 1];
      var before := Survive(cfg, exec, Initial(cfg, boot), front);
      if days[|days| - 1].Occurs? {
        Exits.EventExtends(cfg, exec, before, days[|days| - 1].step);
      }
      assert before.tape <= Survive(cfg, exec, Initial(cfg, boot), days).tape;
      RestoresAreAccepted(cfg, exec, boot, front);
      CrashesAreInvisible(cfg, exec, boot, front);
      match days[|days| - 1]
      case Occurs(_) =>
      case Crashes(reboot, snap) =>
        SubstantialSnapshotsAreAccepted(cfg, exec, boot, EventsOf(front), reboot, snap);
    }
  }

  /** The entry throttle holds across crashes: the window of recent orders travels with the
      snapshot, so no restart lets more buys into a minute. */
  lemma BuyRateSurvivesCrashes(cfg: Config, exec: Executor, boot: Time, start: Time,
      days: seq<Happening>, u: Time)
    requires cfg.Valid()
    requires Captured(cfg, exec, Initial(cfg, boot), days) && Accepted(cfg, exec, Initial(cfg, boot), days)
    requires Chronological(start, EventsOf(days))
    ensures var tape := Survive(cfg, exec, Initial(cfg, boot), days).tape;
      Throttle.CountsFit(tape) ==> Throttle.BuysIn(tape, u) <= cfg.maxTradesPerMin
  {
    CrashesAreInvisible(cfg, exec, boot, days);
    Throttle.BuyRateIsBounded(cfg, exec, boot, start, EventsOf(days), u);
  }

  /** A restore never releases a kill switch: it is on afterwards exactly if the configuration or the
      snapshot has it on, and then no run from there submits a buy or opens a position. */
  lemma KillSurvivesRestore(cfg: Config, exec: Executor, boot: Time, snap: EngineState, tape: seq<Entry>,
      steps: seq<Step>)
    requires cfg.Valid()
    ensures var s := Resumed(cfg, boot, snap, tape);
      && (s.controls.state.kill <==> cfg.killSwitch || snap.risk.kill)
      && (s.controls.state.kill ==> Breaker.OnlyShrank(s, Run(cfg, exec, s, steps)))
  {
    hide Run, Breaker.OnlyShrank, BookOf;
    var s := Resumed(cfg, boot, snap, tape);
    if s.controls.state.kill {
      Breaker.EngagedBreakerStopsEntries(cfg, exec, s, boot, steps);
    }
  }

  /** Of two listed positions of one token the later is restored. */
  lemma {:induction false} LaterPositionWins(positions: seq<Position>, i: nat)
    requires i < |positions| && forall j :: i < j < |positions| ==> positions[j].mint != positions[i].mint
    ensures var m := positions[i].mint;
      m in BookOf(positions) && BookOf(positions)[m] == positions[i]
  {
    if i < |positions| - 1 {
      LaterPositionWins(positions[..|positions| - 1], i);
    }
  }

  // ---- What a restore accepts ----

  /** The costs of the listed positions. */
  function ListedCost(positions: seq<Position>): real {
    if positions == [] then 0.0 else ListedCost(positions[..|positions| - 1]) + positions[|positions| - 1].costUsd
  }

  lemma {:induction false} BookCostsAsListed(positions: seq<Position>)
    requires Distinct(MintsOf(positions))
    ensures Ledger.SumCost(BookOf(positions)) == ListedCost(positions)
    ensures forall m :: m in BookOf(positions) <==> m in MintsOf(positions)
  {
    hide Ledger.SumCost;
    if positions == [] {
      assert Ledger.SumCost(map[]) == 0.0 by { NothingCosts(); }
    } else {
      var front, p := positions[..|positions| - 1], positions[|positions| - 1];
      assert MintsOf(front) == MintsOf(positions)[..|front|];
      assert MintsOf(positions) == MintsOf(front) + [p.mint];
      BookCostsAsListed(front);
      assert p.mint !in MintsOf(front) by {
        assert MintsOf(positions)[|front|] == p.mint;
      }
      Ledger.SumCostUpdate(BookOf(front), p.mint, p);
    }
  }

  lemma NothingCosts()
    ensures Ledger.SumCost(map[]) == 0.0
  {}

  /** A restore accepts a snapshot of distinct tokens if and only if its figures add up: equity is the
      starting equity plus all listed P&L, deployed capital the cost of all listed positions, every listed
      position holds something that cost something, and every trade's P&L is its proceeds less its cost. */
  lemma AcceptedIffFiguresAddUp(cfg: Config, boot: Time, snap: EngineState, tape: seq<Entry>)
    requires Distinct(MintsOf(snap.positions))
    ensures Sound(cfg, Resumed(cfg, boot, snap, tape)) <==>
      && snap.equityUsd == cfg.equityUsd + Ledger.SumPnl(snap.closed)
      && snap.deployedUsd == ListedCost(snap.positions)
      && (forall p :: p in snap.positions ==> p.qty > 0.0 && p.costUsd > 0.0)
      && (forall t :: t in snap.closed ==> t.pnlUsd == t.proceedsUsd - t.costUsd)
  {
    hide Ledger.SumCost, Ledger.SumPnl, BookOf;
    BookCostsAsListed(snap.positions);
    BookIsFiled(snap.positions);
    var book := BookOf(snap.positions);
    forall i | 0 <= i < |snap.positions|
      ensures snap.positions[i].mint in book && book[snap.positions[i].mint] == snap.positions[i]
    {
      BookFindsListed(snap.positions, i);
    }
  }
}
