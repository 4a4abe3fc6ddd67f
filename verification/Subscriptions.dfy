/** Trade subscriptions: planning against the open book, committing the plan, and what the server
    really watches. */
module Subscriptions {
  import opened Domain
  import opened Machine
  import Execution
  import Ordering
  import Solvency

  /** A control message to the feed. */
  datatype Message = Unsubscribe(keys: seq<Mint>) | Subscribe(keys: seq<Mint>)

  function SetOf(xs: seq<Mint>): set<Mint> { set m | m in xs }

  // ---- Planning ----

  /** New open mints in order, while there is room. */
  function NewSubs(open: seq<Mint>, subscribed: set<Mint>, used: nat, cap: nat): seq<Mint> {
    if open == [] || used >= cap then []
    else if open[0] !in subscribed then [open[0]] + NewSubs(open[1..], subscribed, used + 1, cap)
    else NewSubs(open[1..], subscribed, used, cap)
  }

  /** Mints to drop, listed in order. */
  ghost predicate StaleSubs(open: seq<Mint>, subscribed: set<Mint>, toUnsub: seq<Mint>) {
    Ordering.Increasing(toUnsub) && Enumerates(toUnsub, subscribed - SetOf(open))
  }

  method PlanTradeSubs(open: seq<Mint>, subscribed: set<Mint>, cap: nat)
    returns (toSub: seq<Mint>, toUnsub: seq<Mint>)
    ensures StaleSubs(open, subscribed, toUnsub)
    ensures toSub == NewSubs(open, subscribed, |subscribed * SetOf(open)|, cap)
  {
    var stale := [];
    var rest := subscribed;
    while rest != {}
      invariant rest <= subscribed
      invariant Enumerates(stale, subscribed - rest - SetOf(open))
      decreases rest
    {
      var m :| m in rest;
      rest := rest - {m};
      assert m !in stale;
      if m !in open {
        stale := stale + [m];
      }
    }
    Ordering.SortedKeysStrict(stale);
    toUnsub := Ordering.Sorted(stale);
    Ordering.IncreasingDistinct(toUnsub);
    EnumeratedSize(toUnsub, subscribed - SetOf(open));
    SplitSize(subscribed, SetOf(open));
    toSub := [];
    var used: nat := |subscribed| - |toUnsub|;
    var i := 0;
    while i < |open|
      invariant 0 <= i <= |open|
      invariant toSub + NewSubs(open[i..], subscribed, used, cap) ==
                NewSubs(open, subscribed, |subscribed * SetOf(open)|, cap)
    {
      if used >= cap {
        break;
      }
      assert open[i..][0] == open[i] && open[i..][1..] == open[i + 1..];
      if open[i] !in subscribed {
        toSub := toSub + [open[i]];
        used := used + 1;
      }
      i := i + 1;
    }
  }

  lemma {:induction false} EnumeratedSize(xs: seq<Mint>, keys: set<Mint>)
    requires Enumerates(xs, keys)
    ensures |xs| == |keys|
  {
    if xs == [] {
      assert keys == {};
    } else {
      var front, last := xs[..|xs| - 1], xs[|xs| - 1];
      assert forall m :: m in xs <==> m in front || m == last;
      EnumeratedSize(front, keys - {last});
    }
  }

  lemma SplitSize(a: set<Mint>, b: set<Mint>)
    ensures |a| == |a * b| + |a - b|
  {
    assert a == a * b + (a - b);
  }

  /** The committed set: survivors and new subscriptions. */
  function Committed(open: seq<Mint>, subscribed: set<Mint>, cap: nat): set<Mint> {
    var kept := subscribed * SetOf(open);
    kept + SetOf(NewSubs(open, subscribed, |kept|, cap))
  }

  lemma {:induction false} NewSubsFill(open: seq<Mint>, subscribed: set<Mint>, used: nat, cap: nat)
    requires Distinct(open)
    ensures var xs := NewSubs(open, subscribed, used, cap);
      && Distinct(xs)
      && (forall m :: m in xs ==> m in open && m !in subscribed)
      && (used <= cap ==> used + |xs| <= cap)
      && (used > cap ==> xs == [])
      && (used + |xs| >= cap || forall m :: m in open ==> m in xs || m in subscribed)
  {
    if open != [] && used < cap {
      if open[0] !in subscribed {
        NewSubsFill(open[1..], subscribed, used + 1, cap);
      } else {
        NewSubsFill(open[1..], subscribed, used, cap);
      }
    }
  }

  lemma {:induction false} NothingNew(open: seq<Mint>, subscribed: set<Mint>, used: nat, cap: nat)
    requires used >= cap || forall m :: m in open ==> m in subscribed
    ensures NewSubs(open, subscribed, used, cap) == []
  {
    if open != [] && used < cap {
      NothingNew(open[1..], subscribed, used, cap);
    }
  }

  lemma DistinctSize(xs: seq<Mint>)
    requires Distinct(xs)
    ensures |SetOf(xs)| == |xs|
  {
    EnumeratedSize(xs, SetOf(xs));
  }

  /** What a committed plan achieves. It watches open mints only, keeps every subscription that is
      still open, stays within the cap if it was, is full or complete, and planning again changes
      nothing. */
  lemma PlanReconciles(open: seq<Mint>, subscribed: set<Mint>, cap: nat)
    requires Distinct(open)
    ensures var s := Committed(open, subscribed, cap);
      && s <= SetOf(open)
      && subscribed * SetOf(open) <= s
      && (|subscribed * SetOf(open)| <= cap ==> |s| <= cap)
      && (|s| >= cap || s == SetOf(open))
      && s - SetOf(open) == {}
      && NewSubs(open, s, |s * SetOf(open)|, cap) == []
      && Committed(open, s, cap) == s
  {
    hide NewSubs;
    var kept := subscribed * SetOf(open);
    var s := Committed(open, subscribed, cap);
    CommittedFills(open, subscribed, cap);
    assert s * SetOf(open) == s && s - SetOf(open) == {};
    NothingNew(open, s, |s|, cap);
  }

  lemma CommittedFills(open: seq<Mint>, subscribed: set<Mint>, cap: nat)
    requires Distinct(open)
    ensures var s, kept := Committed(open, subscribed, cap), subscribed * SetOf(open);
      && kept <= s <= SetOf(open)
      && (|kept| <= cap ==> |s| <= cap)
      && (|s| >= cap || s == SetOf(open))
  {
    hide NewSubs;
    var kept := subscribed * SetOf(open);
    var xs := NewSubs(open, subscribed, |kept|, cap);
    NewSubsFill(open, subscribed, |kept|, cap);
    DistinctSize(xs);
    assert kept !! SetOf(xs);
    assert |kept + SetOf(xs)| == |kept| + |xs|;
  }

  // ---- Committing, and the server's side ----

  function ControlMessages(toSub: seq<Mint>, toUnsub: seq<Mint>): seq<Message> {
    (if toUnsub == [] then [] else [Unsubscribe(toUnsub)]) +
    (if toSub == [] then [] else [Subscribe(toSub)])
  }

  /** What the server watches after a message. */
  function Served(server: set<Mint>, msg: Message): set<Mint> {
    match msg
    case Unsubscribe(keys) => server - SetOf(keys)
    case Subscribe(keys) => server + SetOf(keys)
  }

  function ServedAll(server: set<Mint>, msgs: seq<Message>): set<Mint> {
    if msgs == [] then server else Served(ServedAll(server, msgs[..|msgs| - 1]), msgs[|msgs| - 1])
  }

  class TradeSubs {
    const maxTradeSubs: nat
    /** What the loop believes it is subscribed to. */
    var subscribed: set<Mint>
    /** What the server was told. */
    ghost var server: set<Mint>

    constructor (maxTradeSubs: nat)
      ensures this.maxTradeSubs == maxTradeSubs && subscribed == {} && server == {}
    {
      this.maxTradeSubs, subscribed, server := maxTradeSubs, {}, {};
    }

    /** Reconcile after an event. `delivers(i)` tells whether the `i`-th send succeeds; sending stops
        at the first failure, and the plan is committed regardless. */
    method AfterEvent(open: seq<Mint>, delivers: nat -> bool)
      returns (ghost toUnsub: seq<Mint>, ghost msgs: seq<Message>, sent: nat)
      modifies this
      ensures subscribed == Committed(open, old(subscribed), maxTradeSubs)
      ensures StaleSubs(open, old(subscribed), toUnsub)
      ensures msgs == ControlMessages(
        NewSubs(open, old(subscribed), |old(subscribed) * SetOf(open)|, maxTradeSubs), toUnsub)
      ensures SentBefore(delivers, sent, |msgs|)
      ensures server == ServedAll(old(server), msgs[..sent])
    {
      var subs, unsubs := PlanTradeSubs(open, subscribed, maxTradeSubs);
      toUnsub, msgs := unsubs, ControlMessages(subs, unsubs);
      sent := SendAll(ControlMessages(subs, unsubs), delivers);
      Commit(subs, unsubs);
      assert old(subscribed) - SetOf(unsubs) == old(subscribed) * SetOf(open);
    }

    method SendAll(msgs: seq<Message>, delivers: nat -> bool) returns (sent: nat)
      modifies this`server
      ensures SentBefore(delivers, sent, |msgs|)
      ensures server == ServedAll(old(server), msgs[..sent])
    {
      sent := 0;
      while sent < |msgs|
        invariant 0 <= sent <= |msgs|
        invariant forall i :: 0 <= i < sent ==> delivers(i)
        invariant server == ServedAll(old(server), msgs[..sent])
      {
        if !delivers(sent) {
          break;
        }
        assert msgs[..sent + 1][..sent] == msgs[..sent];
        server := Served(server, msgs[sent]);
        sent := sent + 1;
      }
    }

    method Commit(toSub: seq<Mint>, toUnsub: seq<Mint>)
      modifies this`subscribed
      ensures subscribed == old(subscribed) - SetOf(toUnsub) + SetOf(toSub)
    {
      for i := 0 to |toUnsub|
        invariant subscribed == old(subscribed) - SetOf(toUnsub[..i])
      {
        assert toUnsub[..i + 1] == toUnsub[..i] + [toUnsub[i]];
        subscribed := subscribed - {toUnsub[i]};
      }
      assert toUnsub[..|toUnsub|] == toUnsub;
      for i := 0 to |toSub|
        invariant subscribed == old(subscribed) - SetOf(toUnsub) + SetOf(toSub[..i])
      {
        assert toSub[..i + 1] == toSub[..i] + [toSub[i]];
        subscribed := subscribed + {toSub[i]};
      }
      assert toSub[..|toSub|] == toSub;
    }
  }

  /** Exactly the sends before the first failing one were made. */
  ghost predicate SentBefore(delivers: nat -> bool, sent: nat, total: nat) {
    && sent <= total
    && (forall i :: 0 <= i < sent ==> delivers(i))
    && (sent < total ==> !delivers(sent))
  }

  /** The loop's view is true exactly while every send succeeds. If loop and server agree before an
      event, they agree after it if and only if all of its control messages were delivered. */
  lemma ViewsAgreeIffDelivered(open: seq<Mint>, subscribed: set<Mint>, cap: nat,
      toUnsub: seq<Mint>, sent: nat)
    requires Distinct(open) && StaleSubs(open, subscribed, toUnsub)
    requires sent <= |ControlMessages(NewSubs(open, subscribed, |subscribed * SetOf(open)|, cap), toUnsub)|
    ensures var msgs := ControlMessages(NewSubs(open, subscribed, |subscribed * SetOf(open)|, cap), toUnsub);
      ServedAll(subscribed, msgs[..sent]) == Committed(open, subscribed, cap) <==> sent == |msgs|
  {
    var used := |subscribed * SetOf(open)|;
    var toSub := NewSubs(open, subscribed, used, cap);
    NewSubsFill(open, subscribed, used, cap);
    assert SetOf(toUnsub) == subscribed - SetOf(open);
    assert SetOf(toSub) !! subscribed;
    AllServedIff(subscribed, SetOf(open), toSub, toUnsub, sent);
  }

  lemma AllServedIff(server: set<Mint>, keep: set<Mint>, toSub: seq<Mint>, toUnsub: seq<Mint>,
      sent: nat)
    requires SetOf(toUnsub) == server - keep && SetOf(toSub) !! server
    requires sent <= |ControlMessages(toSub, toUnsub)|
    ensures ServedAll(server, ControlMessages(toSub, toUnsub)[..sent]) == server * keep + SetOf(toSub)
      <==> sent == |ControlMessages(toSub, toUnsub)|
  {
    var msgs := ControlMessages(toSub, toUnsub);
    assert server - SetOf(toUnsub) == server * keep;
    assert toSub != [] ==> toSub[0] in SetOf(toSub) && toSub[0] !in server;
    assert toUnsub != [] ==> toUnsub[0] in SetOf(toUnsub) && toUnsub[0] !in server * keep + SetOf(toSub);
    ServedPrefix(server, msgs, sent);
  }

  lemma ServedPrefix(server: set<Mint>, msgs: seq<Message>, sent: nat)
    requires sent <= |msgs| <= 2
    ensures ServedAll(server, msgs[..sent]) ==
      if sent == 0 then server
      else if sent == 1 then Served(server, msgs[0])
      else Served(Served(server, msgs[0]), msgs[1])
  {
    if sent >= 1 {
      assert msgs[..1][..0] == [];
      assert ServedAll(server, msgs[..1]) == Served(server, msgs[0]);
    }
    if sent == 2 {
      assert msgs[..2][..1] == msgs[..1];
    }
  }

  /** The open mints that are not subscribed, in order. */
  function Unwatched(open: seq<Mint>, subscribed: set<Mint>): seq<Mint> {
    if open == [] then []
    else if open[0] in subscribed then Unwatched(open[1..], subscribed)
    else [open[0]] + Unwatched(open[1..], subscribed)
  }

  /** When there is not room for all, the first in order are chosen. */
  lemma {:induction false} FirstComeFirstServed(open: seq<Mint>, subscribed: set<Mint>, used: nat, cap: nat)
    ensures var xs, news := NewSubs(open, subscribed, used, cap), Unwatched(open, subscribed);
      && xs <= news
      && |xs| == (if used >= cap then 0 else if |news| <= cap - used then |news| else cap - used)
  {
    if open != [] && used < cap {
      if open[0] !in subscribed {
        FirstComeFirstServed(open[1..], subscribed, used + 1, cap);
      } else {
        FirstComeFirstServed(open[1..], subscribed, used, cap);
      }
    }
  }

  /** A slot frees before it is claimed: after any prefix of the control messages the server watches no
      more than the cap. */
  lemma ServerStaysWithinCap(open: seq<Mint>, subscribed: set<Mint>, cap: nat, toUnsub: seq<Mint>, sent: nat)
    requires Distinct(open) && StaleSubs(open, subscribed, toUnsub) && |subscribed| <= cap
    requires sent <= |ControlMessages(NewSubs(open, subscribed, |subscribed * SetOf(open)|, cap), toUnsub)|
    ensures var msgs := ControlMessages(NewSubs(open, subscribed, |subscribed * SetOf(open)|, cap), toUnsub);
      |ServedAll(subscribed, msgs[..sent])| <= cap
  {
    var toSub := NewSubs(open, subscribed, |subscribed * SetOf(open)|, cap);
    var msgs := ControlMessages(toSub, toUnsub);
    ViewsAgreeIffDelivered(open, subscribed, cap, toUnsub, sent);
    PlanReconciles(open, subscribed, cap);
    Solvency.Fewer(subscribed * SetOf(open), subscribed);
    ServedPrefix(subscribed, msgs, sent);
    if sent == 1 < |msgs| {
      Solvency.Fewer(subscribed - SetOf(toUnsub), subscribed);
    }
  }

  /** A failed send is not repaired by the next event: with the book unchanged, the committed plan
      leaves nothing to send, so the server keeps missing what it was not told. */
  lemma FailedSendIsNotRetried(open: seq<Mint>, subscribed: set<Mint>, cap: nat,
      toUnsub: seq<Mint>)
    requires Distinct(open) && StaleSubs(open, Committed(open, subscribed, cap), toUnsub)
    ensures var s := Committed(open, subscribed, cap);
      ControlMessages(NewSubs(open, s, |s * SetOf(open)|, cap), toUnsub) == []
  {
    PlanReconciles(open, subscribed, cap);
    EnumeratedSize(toUnsub, {});
  }

  // ---- Subscriptions along a run of the engine ----

  /** The open mints in order. */
  ghost function Listing(keys: set<Mint>): seq<Mint> {
    if keys == {} then []
    else
      var m :| m in keys;
      Ordering.Sorted(Listing(keys - {m}) + [m])
  }

  lemma {:induction false} ListingEnumerates(keys: set<Mint>)
    ensures Enumerates(Listing(keys), keys) && Ordering.Increasing(Listing(keys))
  {
    if keys != {} {
      var m :| m in keys && Listing(keys) == Ordering.Sorted(Listing(keys - {m}) + [m]);
      ListingEnumerates(keys - {m});
      var xs := Listing(keys - {m}) + [m];
      Ordering.SortedKeysStrict(xs);
      Ordering.IncreasingDistinct(Listing(keys));
    }
  }

  /** The subscribed set after a run, reconciled after every event. */
  ghost function SubsAfter(cfg: Config, exec: Executor, s: State, steps: seq<Step>): set<Mint>
    requires cfg.Valid()
  {
    if steps == [] then {}
    else
      Committed(Listing(Run(cfg, exec, s, steps).positions.Keys),
                SubsAfter(cfg, exec, s, steps[..|steps| - 1]), cfg.maxTradeSubs)
  }

  /** Subscriptions track the book. After every event the subscribed set is a subset of the open
      mints within the cap, full or complete; and if the cap covers the position limit, it is
      exactly the open mints. */
  lemma {:induction false} SubscriptionsTrackBook(cfg: Config, exec: Executor, boot: Time, steps: seq<Step>)
    requires cfg.Valid() && Execution.Faithful(exec) && LegalRun(cfg, exec, Initial(cfg, boot), steps)
    ensures var open := Run(cfg, exec, Initial(cfg, boot), steps).positions.Keys;
      var subs := SubsAfter(cfg, exec, Initial(cfg, boot), steps);
      && subs <= open && |subs| <= cfg.maxTradeSubs
      && (|subs| == cfg.maxTradeSubs || subs == open)
      && (cfg.maxTradeSubs >= cfg.maxOpenPositions ==> subs == open)
    decreases |steps|
  {
    hide OnEvent, Committed;
    if steps != [] {
      var front := steps[..|steps| - 1];
      var open := Run(cfg, exec, Initial(cfg, boot), steps).positions.Keys;
      var before := SubsAfter(cfg, exec, Initial(cfg, boot), front);
      var subs := SubsAfter(cfg, exec, Initial(cfg, boot), steps);
      SubscriptionsTrackBook(cfg, exec, boot, front);
      ListingEnumerates(open);
      assert SetOf(Listing(open)) == open;
      PlanReconciles(Listing(open), before, cfg.maxTradeSubs);
      Solvency.Fewer(before * open, before);
      Solvency.OpenPositionsAreCapped(cfg, exec, boot, steps);
      if |subs| == cfg.maxTradeSubs && cfg.maxTradeSubs >= cfg.maxOpenPositions {
        SameSize(subs, open);
      }
    }
  }

  lemma SameSize(a: set<Mint>, b: set<Mint>)
    requires a <= b && |a| >= |b|
    ensures a == b
  {
    assert b == a + (b - a);
    assert |b - a| == 0;
  }
}
