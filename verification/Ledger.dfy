/** Sums over the book and the tape, and the consistency audit of the ledger. */
module Ledger {
  import opened Domain
  import Decimals
  import opened Machine

  ghost function SumCost(book: map<Mint, Position>): real
    decreases |book|
  {
    if book == map[] then 0.0
    else
      var m :| m in book;
      book[m].costUsd + SumCost(book - {m})
  }

  function SumPnl(closed: seq<ClosedTrade>): real {
    if closed == [] then 0.0 else SumPnl(closed[..|closed| - 1]) + closed[|closed| - 1].pnlUsd
  }

  function BuyCost(e: Entry): real {
    match e
    case Traded(BuyOrder(_, _, _, _, _, _, _), Filled(f), _) => f.notionalUsd + f.feeUsd
    case _ => 0.0
  }

  function SellProceeds(e: Entry): real {
    match e
    case Traded(SellOrder(_, _, _, _, _, _, _), Filled(f), _) => Decimals.Round12(f.notionalUsd - f.feeUsd)
    case _ => 0.0
  }

  /** USD spent on every buy fill so far, fees included. */
  function Spent(tape: seq<Entry>): real {
    if tape == [] then 0.0 else Spent(tape[..|tape| - 1]) + BuyCost(tape[|tape| - 1])
  }

  /** USD received from every sell fill so far, net of fees. */
  function Received(tape: seq<Entry>): real {
    if tape == [] then 0.0 else Received(tape[..|tape| - 1]) + SellProceeds(tape[|tape| - 1])
  }

  lemma {:induction false} SumCostSplit(book: map<Mint, Position>, m: Mint)
    requires m in book
    ensures SumCost(book) == book[m].costUsd + SumCost(book - {m})
    decreases |book|
  {
    var k :| k in book && SumCost(book) == book[k].costUsd + SumCost(book - {k});
    if k != m {
      SumCostSplit(book - {k}, m);
      SumCostSplit(book - {m}, k);
      assert book - {k} - {m} == book - {m} - {k};
    }
  }

  /** Booking a position, new or not, changes the total by the change of its own cost. */
  lemma SumCostUpdate(book: map<Mint, Position>, m: Mint, p: Position)
    ensures SumCost(book[m := p]) ==
      SumCost(book) + p.costUsd - (if m in book then book[m].costUsd else 0.0)
  {
    SumCostSplit(book[m := p], m);
    assert book[m := p] - {m} == book - {m};
    if m in book {
      SumCostSplit(book, m);
    } else {
      assert book - {m} == book;
    }
  }
}
