/** Crash-safe snapshots: what is captured, what is rebuilt, and what is refused. */
module Persist {
  import opened Domain
  import opened Risk
  import opened Machine
  import opened Ledger
  import Ordering

  const VERSION: nat := 1

  datatype EngineState = EngineState(
    version: nat,
    equityUsd: real,
    deployedUsd: real,
    positions: seq<Position>,
    closed: seq<ClosedTrade>,
    orderSeq: nat,
    risk: RiskState)

  /** Why a ledger is refused. */
  datatype AuditError =
    | EquityMismatch(equity: real, expected: real)
    | DeployedMismatch(deployed: real, openCost: real)
    | EmptyPosition(position: Position)
    | TradeMismatch(trade: ClosedTrade)

  function MintsOf(positions: seq<Position>): seq<Mint> {
    seq(|positions|, i requires 0 <= i < |positions| => positions[i].mint)
  }

  /** A snapshot of `s`: its fields as they are, and its positions listed by mint. */
  ghost predicate SnapshotOf(s: State, snap: EngineState) {
    && snap == EngineState(VERSION, s.equity, s.deployed, snap.positions, s.closed, s.orderSeq,
                           s.controls.state)
    && Ordering.Increasing(MintsOf(snap.positions))
    && (forall p :: p in snap.positions <==> p in s.positions.Values)
  }

  /** The book filed by mint; of two positions with one mint the later wins. */
  function BookOf(positions: seq<Position>): map<Mint, Position> {
    if positions == [] then map[]
    else
      var p := positions[|positions| - 1];
      BookOf(positions[..|positions| - 1])[p.mint := p]
  }

  /** The machine state a snapshot describes; `tape` is the history so far, which the engine
      does not store. */
  function Resumed(cfg: Config, boot: Time, snap: EngineState, tape: seq<Entry>): State {
    var book := BookOf(snap.positions);
    State(snap.equityUsd, snap.deployedUsd, book, snap.closed, snap.orderSeq,
          Controls(RestoreOver(NewState(cfg, boot), snap.risk), |book|), tape)
  }

  predicate TradeAddsUp(t: ClosedTrade) { t.pnlUsd == t.proceedsUsd - t.costUsd }

  /** The money invariants every book, live or restored, must satisfy. */
  ghost predicate Sound(cfg: Config, s: State) {
    && s.equity == cfg.equityUsd + SumPnl(s.closed)
    && s.deployed == SumCost(s.positions)
    && (forall m :: m in s.positions ==> Holds(s.positions[m]))
    && (forall t :: t in s.closed ==> TradeAddsUp(t))
  }

  /** An open position holds something that cost something. */
  predicate Holds(p: Position) { p.qty > 0.0 && p.costUsd > 0.0 }

  /** The error names an invariant of `s` that fails, with the values that disagree. */
  ghost predicate Offends(cfg: Config, s: State, e: AuditError) {
    match e
    case EquityMismatch(equity, expected) =>
      equity == s.equity != expected == cfg.equityUsd + SumPnl(s.closed)
    case DeployedMismatch(deployed, openCost) =>
      deployed == s.deployed != openCost == SumCost(s.positions)
    case EmptyPosition(p) => p in s.positions.Values && !Holds(p)
    case TradeMismatch(t) => t in s.closed && !TradeAddsUp(t)
  }

  /** A book rebuilt from a list files every position under its own mint. */
  lemma {:induction false} BookIsFiled(positions: seq<Position>)
    ensures forall m :: m in BookOf(positions) ==> BookOf(positions)[m].mint == m && BookOf(positions)[m] in positions
  {
    if positions != [] {
      BookIsFiled(positions[..|positions| - 1]);
    }
  }
}
