/** The live loop: every event goes to the engine, and then the trade subscriptions are reconciled
    with the book. */
module LiveLoop {
  import opened Domain
  import opened Machine
  import opened Subscriptions
  import Engine
  import Execution
  import Ordering

  /** The sorted list of open mints is the one the engine reports. */
  lemma ListingIs(mints: seq<Mint>, keys: set<Mint>)
    requires Enumerates(mints, keys) && Ordering.Increasing(mints)
    ensures mints == Listing(keys)
  {
    ListingEnumerates(keys);
    Ordering.SortedUnique(mints, Listing(keys));
  }

  /** One event. If loop and server agreed before it and every send succeeds, they agree after it. */
  method HandleEvent(eng: Engine.Engine, subs: TradeSubs, ev: Event, delivers: nat -> bool)
    returns (ghost order: seq<Mint>)
    requires eng.Valid()
    modifies eng, eng.risk, subs
    ensures eng.Valid()
    ensures Legal(eng.cfg, eng.exec, old(eng.View()), Step(ev, order))
    ensures eng.View() == OnEvent(eng.cfg, eng.exec, old(eng.View()), Step(ev, order))
    ensures subs.subscribed == Committed(Listing(eng.positions.Keys), old(subs.subscribed), subs.maxTradeSubs)
    ensures old(subs.server == subs.subscribed) && (forall i :: delivers(i)) ==> subs.server == subs.subscribed
  {
    order := eng.OnEvent(ev);
    var mints := eng.OpenMints();
    ListingIs(mints, eng.positions.Keys);
    ghost var before := subs.subscribed;
    ghost var toUnsub, msgs;
    var sent;
    toUnsub, msgs, sent := subs.AfterEvent(mints, delivers);
    ViewsAgreeIffDelivered(mints, before, subs.maxTradeSubs, toUnsub, sent);
  }

  /** No send ever fails; `delivers(i, j)` tells of the `j`-th send after the `i`-th event. */
  ghost predicate AllDelivered(delivers: (nat, nat) -> bool) { forall i, j :: delivers(i, j) }

  lemma RunGrows(cfg: Config, exec: Executor, s: State, steps: seq<Step>, step: Step)
    requires cfg.Valid()
    ensures var longer := steps + [step];
      && Run(cfg, exec, s, longer) == OnEvent(cfg, exec, Run(cfg, exec, s, steps), step)
      && (LegalRun(cfg, exec, s, longer) <==>
            LegalRun(cfg, exec, s, steps) && Legal(cfg, exec, Run(cfg, exec, s, steps), step))
      && SubsAfter(cfg, exec, s, longer) ==
         Committed(Listing(Run(cfg, exec, s, longer).positions.Keys), SubsAfter(cfg, exec, s, steps), cfg.maxTradeSubs)
  {
    hide OnEvent, Legal, Committed, Listing;
    assert (steps + [step])[..|steps|] == steps;
  }

  /** A feed of events, from a fresh engine and no subscriptions. The engine makes a legal run, the
      loop's view is the one the run prescribes, and the server shares it if no send fails; then,
      if the cap covers the position limit, the server watches exactly the open mints. */
  method HandleAll(eng: Engine.Engine, subs: TradeSubs, events: seq<Event>, delivers: (nat, nat) -> bool,
      ghost boot: Time)
    returns (ghost steps: seq<Step>)
    requires eng.Valid() && eng.View() == Initial(eng.cfg, boot)
    requires subs.maxTradeSubs == eng.cfg.maxTradeSubs && subs.subscribed == {} && subs.server == {}
    modifies eng, eng.risk, subs
    ensures eng.Valid()
    ensures |steps| == |events| && forall i :: 0 <= i < |events| ==> steps[i].ev == events[i]
    ensures LegalRun(eng.cfg, eng.exec, Initial(eng.cfg, boot), steps)
    ensures eng.View() == Run(eng.cfg, eng.exec, Initial(eng.cfg, boot), steps)
    ensures subs.subscribed == SubsAfter(eng.cfg, eng.exec, Initial(eng.cfg, boot), steps)
    ensures AllDelivered(delivers) ==> subs.server == subs.subscribed
    ensures AllDelivered(delivers) && Execution.Faithful(eng.exec) && eng.cfg.maxTradeSubs >= eng.cfg.maxOpenPositions
      ==> subs.server == eng.positions.Keys
  {
    hide OnEvent, Legal, Committed, Execution.Faithful, Listing;
    ghost var s0 := Initial(eng.cfg, boot);
    steps := [];
    for i: nat := 0 to |events|
      invariant eng.Valid()
      invariant |steps| == i && forall j :: 0 <= j < i ==> steps[j].ev == events[j]
      invariant LegalRun(eng.cfg, eng.exec, s0, steps)
      invariant eng.View() == Run(eng.cfg, eng.exec, s0, steps)
      invariant subs.subscribed == SubsAfter(eng.cfg, eng.exec, s0, steps)
      invariant AllDelivered(delivers) ==> subs.server == subs.subscribed
    {
      ghost var order := HandleEvent(eng, subs, events[i], (j: nat) => delivers(i, j));
      RunGrows(eng.cfg, eng.exec, s0, steps, Step(events[i], order));
      steps := steps + [Step(events[i], order)];
    }
    if Execution.Faithful(eng.exec) {
      SubscriptionsTrackBook(eng.cfg, eng.exec, boot, steps);
    }
  }
}
