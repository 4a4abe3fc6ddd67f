/** The live feed: decoding the instructions of a transaction, stamping the events, and counting
    every instruction exactly once. */
module LiveFeed {
  import opened Domain
  import opened Decode
  import opened SlotClock
  import Ordering

  /** A decoded instruction in wire form. */
  datatype WireIx = WireIx(program: string, accounts: seq<string>, data: seq<Byte>)

  datatype RawKind =
    | Create(bondingCurve: string, creator: seq<Byte>, name: seq<Byte>, symbol: seq<Byte>, mayhem: bool)
    | Trade(curve: string, buy: bool, v2: bool, amountBaseUnits: nat, limitQuoteUnits: nat)
    | Migrate(migratedCurve: string, pool: string)

  datatype RawEvent = RawEvent(slot: Slot, mint: string, kind: RawKind)

  datatype StampedEvent = StampedEvent(atMs: int, event: RawEvent)

  datatype Stats = Stats(creates: nat, trades: nat, migrates: nat, unknownIx: nat, unstampedDropped: nat)

  /** The event an instruction decodes to, whichever decoder accepts it first. */
  function EventOf(utf8: Utf8, slot: Slot, ix: WireIx): Option<RawEvent> {
    if ix.program != PUMP_PROGRAM then None
    else
      match ParseCreate(utf8, ix.program, ix.accounts, ix.data)
      case Some(c) => Some(RawEvent(slot, c.mint, Create(c.bondingCurve, c.creator, c.name, c.symbol, c.mayhem)))
      case None =>
        match ParseTrade(ix.program, ix.accounts, ix.data)
        case Some(t) =>
          Some(RawEvent(slot, t.mint, Trade(t.bondingCurve, t.kind == Buy, t.v2, t.amountBaseUnits, t.limitQuoteUnits)))
        case None =>
          match ParseMigrate(ix.program, ix.accounts, ix.data)
          case Some(m) => Some(RawEvent(slot, m.mint, Migrate(m.bondingCurve, m.pool)))
          case None => None
  }

  /** The decoded events of a transaction, in instruction order. */
  function EventsOf(utf8: Utf8, slot: Slot, ixs: seq<WireIx>): seq<RawEvent> {
    if ixs == [] then []
    else
      var front := EventsOf(utf8, slot, ixs[..|ixs| - 1]);
      match EventOf(utf8, slot, ixs[|ixs| - 1])
      case None => front
      case Some(e) => front + [e]
  }

  /** Instructions addressed to the pump program. */
  function PumpCount(ixs: seq<WireIx>): nat {
    if ixs == [] then 0
    else PumpCount(ixs[..|ixs| - 1]) + if ixs[|ixs| - 1].program == PUMP_PROGRAM then 1 else 0
  }

  /** Instructions addressed to the pump program that no decoder understands. */
  function UnknownCount(utf8: Utf8, slot: Slot, ixs: seq<WireIx>): nat {
    if ixs == [] then 0
    else
      var ix := ixs[|ixs| - 1];
      UnknownCount(utf8, slot, ixs[..|ixs| - 1])
        + if ix.program == PUMP_PROGRAM && EventOf(utf8, slot, ix).None? then 1 else 0
  }

  function MintKey(e: RawEvent): string { e.mint }

  /** Decode a transaction: its events sorted by mint (stably), and the unknown instructions. */
  method HandleInstructions(utf8: Utf8, slot: Slot, ixs: seq<WireIx>) returns (events: seq<RawEvent>, unknown: nat)
    ensures events == Ordering.SortBy(EventsOf(utf8, slot, ixs), MintKey)
    ensures unknown == UnknownCount(utf8, slot, ixs)
    ensures |events| + unknown == PumpCount(ixs)
    ensures multiset(events) == multiset(EventsOf(utf8, slot, ixs))
    ensures forall i, j :: 0 <= i < j < |events| ==> !Ordering.Less(events[j].mint, events[i].mint)
    ensures forall i :: 0 <= i < |events| ==> events[i].slot == slot
  {
    events, unknown := [], 0;
    for i := 0 to |ixs|
      invariant events == EventsOf(utf8, slot, ixs[..i])
      invariant unknown == UnknownCount(utf8, slot, ixs[..i])
    {
      assert ixs[..i + 1][..i] == ixs[..i];
      var ix := ixs[i];
      if ix.program != PUMP_PROGRAM {
        continue;
      }
      var create := DecodeCreate(utf8, ix.program, ix.accounts, ix.data);
      if create.Some? {
        var c := create.value;
        events := events + [RawEvent(slot, c.mint, Create(c.bondingCurve, c.creator, c.name, c.symbol, c.mayhem))];
        continue;
      }
      var trade := DecodeTrade(ix.program, ix.accounts, ix.data);
      if trade.Some? {
        var t := trade.value;
        var kind := Trade(t.bondingCurve, t.kind == Buy, t.v2, t.amountBaseUnits, t.limitQuoteUnits);
        events := events + [RawEvent(slot, t.mint, kind)];
        continue;
      }
      var migrate := ParseMigrate(ix.program, ix.accounts, ix.data);
      if migrate.Some? {
        var m := migrate.value;
        events := events + [RawEvent(slot, m.mint, Migrate(m.bondingCurve, m.pool))];
        continue;
      }
      unknown := unknown + 1;
    }
    assert ixs[..|ixs|] == ixs;
    Ordering.SortByIsStableSort(events, MintKey);
    EveryInstructionCounts(utf8, slot, ixs);
    SortedSlots(events, slot);
    events := Ordering.SortBy(events, MintKey);
  }

  /** Every pump instruction yields exactly one event or counts as unknown. */
  lemma {:induction false} EveryInstructionCounts(utf8: Utf8, slot: Slot, ixs: seq<WireIx>)
    ensures |EventsOf(utf8, slot, ixs)| + UnknownCount(utf8, slot, ixs) == PumpCount(ixs)
    ensures forall e :: e in EventsOf(utf8, slot, ixs) ==> e.slot == slot
  {
    hide ParseCreate, ParseTrade, ParseMigrate;
    if ixs != [] {
      EveryInstructionCounts(utf8, slot, ixs[..|ixs| - 1]);
    }
  }

  /** Instructions come out as what they encode: a create, a trade or a migration of the pump program
      yields the event with its own fields, and an instruction of another program yields none. */
  lemma EventsMeanInstructions(utf8: Utf8, slot: Slot, ix: WireIx)
    ensures ix.program != PUMP_PROGRAM ==> EventOf(utf8, slot, ix).None?
    ensures forall t: TradeIx ::
      ix.program == PUMP_PROGRAM && TradeFits(t, ix.accounts) && EncodeTrade(t) <= ix.data ==>
        EventOf(utf8, slot, ix) == Some(RawEvent(slot, t.mint,
          Trade(t.bondingCurve, t.kind == Buy, t.v2, t.amountBaseUnits, t.limitQuoteUnits)))
    ensures forall m: MigrateIx ::
      ix.program == PUMP_PROGRAM && ParseMigrate(ix.program, ix.accounts, ix.data) == Some(m) ==>
        EventOf(utf8, slot, ix) == Some(RawEvent(slot, m.mint, Migrate(m.bondingCurve, m.pool)))
  {
    hide ParseCreate, ParseTrade, ParseMigrate, EncodeTrade, TradeFits;
    DecodersAreDisjoint(utf8, ix.program, ix.accounts, ix.data);
    forall t: TradeIx | ix.program == PUMP_PROGRAM && TradeFits(t, ix.accounts) && EncodeTrade(t) <= ix.data
      ensures EventOf(utf8, slot, ix) == Some(RawEvent(slot, t.mint,
        Trade(t.bondingCurve, t.kind == Buy, t.v2, t.amountBaseUnits, t.limitQuoteUnits)))
    {
      TradeParsesIffEncoded(ix.accounts, ix.data, t);
    }
  }

  /** An encoded create, with any tail, comes out as its create event. */
  lemma CreateBecomesEvent(utf8: Utf8, slot: Slot, c: CreateIx, accounts: seq<string>, tail: seq<Byte>)
    requires Encodable(utf8, c)
    requires |accounts| >= 3 && accounts[0] == c.mint && accounts[2] == c.bondingCurve
    ensures EventOf(utf8, slot, WireIx(PUMP_PROGRAM, accounts, EncodeCreate(c) + tail)) == Some(RawEvent(slot, c.mint,
      Create(c.bondingCurve, c.creator, c.name, c.symbol, c.v2 && tail != [] && tail[0] != 0)))
  {
    hide ParseCreate, EncodeCreate;
    CreateRoundTrip(utf8, c, accounts, tail);
  }

  // ---- Stamping and counting ----

  function Counted(s: Stats, e: RawEvent): Stats {
    match e.kind
    case Create(_, _, _, _, _) => s.(creates := s.creates + 1)
    case Trade(_, _, _, _, _) => s.(trades := s.trades + 1)
    case Migrate(_, _) => s.(migrates := s.migrates + 1)
  }

  function CountedAll(s: Stats, events: seq<RawEvent>): Stats {
    if events == [] then s else Counted(CountedAll(s, events[..|events| - 1]), events[|events| - 1])
  }

  function StampAll(events: seq<RawEvent>, atMs: int): seq<StampedEvent> {
    if events == [] then []
    else StampAll(events[..|events| - 1], atMs) + [StampedEvent(atMs, events[|events| - 1])]
  }

  /** Everything that was ever counted. */
  function Accounted(s: Stats): nat {
    s.creates + s.trades + s.migrates + s.unknownIx + s.unstampedDropped
  }

  /** Events that were stamped. */
  function Kept(s: Stats): nat { s.creates + s.trades + s.migrates }

  /** How many of the events are of a kind. */
  function Many(events: seq<RawEvent>, tag: Tag): nat {
    if events == [] then 0
    else Many(events[..|events| - 1], tag) + if TagOf(events[|events| - 1].kind) == tag then 1 else 0
  }

  datatype Tag = CreateTag | TradeTag | MigrateTag

  function TagOf(kind: RawKind): Tag {
    if kind.Create? then CreateTag else if kind.Trade? then TradeTag else MigrateTag
  }

  /** Each kind is counted as itself. */
  lemma {:induction false} CountsByKind(s: Stats, events: seq<RawEvent>)
    ensures var s' := CountedAll(s, events);
      && s'.creates == s.creates + Many(events, CreateTag)
      && s'.trades == s.trades + Many(events, TradeTag)
      && s'.migrates == s.migrates + Many(events, MigrateTag)
  {
    if events != [] {
      CountsByKind(s, events[..|events| - 1]);
    }
  }

  lemma {:induction false} CountsAddUp(s: Stats, events: seq<RawEvent>)
    ensures var s' := CountedAll(s, events);
      && Accounted(s') == Accounted(s) + |events|
      && Kept(s') == Kept(s) + |events|
      && s'.unknownIx == s.unknownIx && s'.unstampedDropped == s.unstampedDropped
  {
    if events != [] {
      CountsAddUp(s, events[..|events| - 1]);
    }
  }

  /** Every event is stamped once, in order. */
  lemma {:induction false} StampedInOrder(events: seq<RawEvent>, atMs: int)
    ensures |StampAll(events, atMs)| == |events|
    ensures forall i :: 0 <= i < |events| ==> StampAll(events, atMs)[i] == StampedEvent(atMs, events[i])
  {
    if events != [] {
      StampedInOrder(events[..|events| - 1], atMs);
    }
  }

  class Feed {
    const utf8: Utf8
    const clock: Clock
    var stats: Stats
    var buffer: seq<StampedEvent>
    /** Pump instructions received so far. */
    ghost var seen: nat
    /** Stamped events handed out so far. */
    ghost var popped: nat

    /** Every instruction is accounted for once, and no stamped event is lost. */
    ghost predicate Valid()
      reads this, clock
    {
      && clock.Valid()
      && Accounted(stats) == seen
      && Kept(stats) == |buffer| + popped
    }

    constructor (utf8: Utf8)
      ensures Valid() && fresh(clock)
      ensures stats == Stats(0, 0, 0, 0, 0) && buffer == [] && seen == 0 && popped == 0
    {
      this.utf8 := utf8;
      clock := new Clock();
      stats, buffer := Stats(0, 0, 0, 0, 0), [];
      seen, popped := 0, 0;
    }

    /** A block's time, in seconds if it is known. */
    method ApplyBlockMeta(slot: Slot, blockTime: Option<int>)
      requires Valid()
      modifies clock
      ensures Valid()
      ensures clock.full == if blockTime.Some? then old(clock.full)[slot := blockTime.value * 1000] else old(clock.full)
    {
      if blockTime.Some? {
        clock.Insert(slot, blockTime.value * 1000);
      }
    }

    /** A transaction: either all of its events are stamped with the time of its slot, buffered in
        order and counted by kind, or, if no time is known, all of them are counted as dropped. */
    method ApplyTransaction(slot: Slot, ixs: seq<WireIx>)
      requires Valid()
      modifies this
      ensures Valid()
      ensures seen == old(seen) + PumpCount(ixs) && popped == old(popped)
      ensures var events := Ordering.SortBy(EventsOf(utf8, slot, ixs), MintKey);
        var base := old(stats).(unknownIx := old(stats).unknownIx + UnknownCount(utf8, slot, ixs));
        match LatestAt(clock.inner, slot)
        case Some(atMs) =>
          buffer == old(buffer) + StampAll(events, atMs) && stats == CountedAll(base, events)
        case None =>
          buffer == old(buffer) && stats == base.(unstampedDropped := base.unstampedDropped + |events|)
    {
      hide EventsOf, UnknownCount, PumpCount, StampAll, CountedAll, Ordering.SortBy, LatestAt, Newest;
      var events, unknown := HandleInstructions(utf8, slot, ixs);
      seen := seen + PumpCount(ixs);
      stats := stats.(unknownIx := stats.unknownIx + unknown);
      StampEvents(slot, events);
    }

    /** Stamp the events of one slot, buffer them and count them by kind, or count them as dropped. */
    method StampEvents(slot: Slot, events: seq<RawEvent>)
      requires clock.Valid()
      requires forall i :: 0 <= i < |events| ==> events[i].slot == slot
      modifies this`stats, this`buffer
      ensures match LatestAt(clock.inner, slot)
        case Some(atMs) =>
          buffer == old(buffer) + StampAll(events, atMs) && stats == CountedAll(old(stats), events)
        case None =>
          && buffer == old(buffer)
          && stats == old(stats).(unstampedDropped := old(stats).unstampedDropped + |events|)
      ensures Accounted(stats) == Accounted(old(stats)) + |events|
      ensures Kept(stats) - |buffer| == Kept(old(stats)) - |old(buffer)|
    {
      ghost var base := stats;
      ghost var stamp := LatestAt(clock.inner, slot);
      for i := 0 to |events|
        invariant if stamp.Some?
          then buffer == old(buffer) + StampAll(events[..i], stamp.value) && stats == CountedAll(base, events[..i])
          else buffer == old(buffer) && stats == base.(unstampedDropped := base.unstampedDropped + i)
      {
        assert events[..i + 1][..i] == events[..i];
        var stamped := clock.Lookup(events[i].slot);
        if stamped.Some? {
          stats := Counted(stats, events[i]);
          buffer := buffer + [StampedEvent(stamped.value, events[i])];
        } else {
          stats := stats.(unstampedDropped := stats.unstampedDropped + 1);
        }
      }
      assert events[..|events|] == events;
      CountsAddUp(base, events);
      StampedInOrder(events, if stamp.Some? then stamp.value else 0);
    }

    /** Hand out the oldest buffered event. */
    method PopRaw() returns (r: Option<StampedEvent>)
      requires Valid()
      modifies this
      ensures Valid() && seen == old(seen) && stats == old(stats)
      ensures if old(buffer) == [] then r == None && buffer == [] && popped == old(popped)
        else r == Some(old(buffer)[0]) && buffer == old(buffer)[1..] && popped == old(popped) + 1
    {
      if buffer == [] {
        return None;
      }
      r := Some(buffer[0]);
      buffer := buffer[1..];
      popped := popped + 1;
    }
  }

  lemma SortedSlots(events: seq<RawEvent>, slot: Slot)
    requires forall e :: e in events ==> e.slot == slot
    ensures forall i :: 0 <= i < |Ordering.SortBy(events, MintKey)| ==> Ordering.SortBy(events, MintKey)[i].slot == slot
  {
    var sorted := Ordering.SortBy(events, MintKey);
    Ordering.SortByIsStableSort(events, MintKey);
    forall i | 0 <= i < |sorted| ensures sorted[i].slot == slot {
      assert sorted[i] in multiset(sorted);
      assert sorted[i] in multiset(events);
      assert sorted[i] in events;
    }
  }
}
