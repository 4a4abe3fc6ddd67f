# Formal model of the launch-sniping trading engine

This project models a trading bot for newly launched tokens and proves what its money and risk
rules promise over whole runs. The bot is a deterministic state machine: launch and price events
come in, a funnel of buy slices opens positions, price rules and a time-stop sweep close them, and
risk controls (daily-loss latch, kill switch, position cap, order throttle) stand in front of every
entry. The executor is an adversary: any order may fill or fail, at any price it likes, unless a
theorem says otherwise.

The model has two layers that are proved equal.

* **Objects.** `Engine.Engine`, `Risk.RiskEngine`, `TokenBucket.Governor`, `SlotClock.Clock`,
  `Subscriptions.TradeSubs`, `Decode.Cursor` and `LiveFeed.Feed` are classes with the mutable
  fields of the original; their methods update them step by step, with the original's branches.
* **Specification.** `Machine` (with `Risk`, `Strategy`, `Execution`) is the same engine as a pure
  step function. Every engine method ensures that it makes exactly the transition of `Machine`, and
  the theorems about runs are proved of `Machine.Run`.

`Machine.State` also carries a `tape`, a history of orders, replies and ticks that no decision
reads. `Moves` reduces every event to four elementary moves (settling the controls, sending a
slice, observing a tick, selling), so a run theorem only has to look at moves (`Moves.RunKeeps`).
The map iteration order of the sweep is a free choice in every step; `Machine.Legal` only asks that
it lists the open positions. An executor is a function of the order, and order ids never repeat
within a run (`Lifetime.OrderIdsNeverRepeat`), so quantifying over executors covers stateful and
adaptive ones.

## Where the code departs from its comments or limits

The model follows the code.

* `on_launch` sets its clock to the launch's own creation time (`src/engine.rs:171`), so the age
  gate (`src/engine.rs:179`) and the funnel deadline (`src/engine.rs:211-214`) can never refuse
  anything there (`Machine.LaunchIsNeverLate`). The branches are modelled where the code has them.
* Slices are floored to whole dollars, not to four decimals (`src/strategy.rs:77`, `:84`).
* `after_event` commits its plan even when a send failed (`src/liveloop.rs:380-393`): the retry its
  comment announces does not happen. `Subscriptions.FailedSendIsNotRetried` proves it, and
  `Subscriptions.ViewsAgreeIffDelivered` says exactly when client and server agree.
* `ClosedTrade.opened_at` is the sell fill's time (`src/engine.rs:509`); see
  `Trades.TradeLogIsFaithful`.
* The paper executor checks positivity before rounding (`src/exec.rs:188-207`), so a fill can round
  to nothing. `PaperTrading.SubstantialExactlyIfNotDust` gives the exact condition for one fill and
  `PaperRuns.PaperSnapshotAcceptedIff` for the snapshot of a whole run;
  `Scenarios.DustSnapshotIsRefused` is a run whose snapshot the restore refuses.
* The order window is counted in 32 bits (`src/risk.rs:190-196`). `Throttle.ThrottleAdmitsIff` gives
  the exact decision, `Throttle.BuyRateIsBounded` the rate limit while the count does not wrap in
  the minute before a buy, and `Scenarios.RateLimitCanWrap` a legal run that breaks it otherwise.
* A refill of the token bucket reads the clock twice (`src/live.rs:64`, `:71`): what accrues between
  the readings is lost, and `TokenBucket.PollingIsServed` accounts for it. It also truncates the tokens
  earned to 64 bits (`src/live.rs:68`). `TokenBucket.EarnedIsExactIff` says exactly when the count is
  right, and `TokenBucket.FastRefillWrapsAround` is a two-second wait that earns nothing.
* The order of a sweep can decide whether the daily-loss latch is set:
  `Scenarios.SweepOrderDecidesLatch` is such a run. `LatchOrder.LatchConfluentIff` says exactly when it
  cannot, in every state in which a legal run starts a sweep of some position
  (`LatchOrder.SweepsStartGuarded`).
* Snapshots are saved on a timer (`src/liveloop.rs:259-262`), so a crash can lose orders, and with them
  their places in the order window. `Recovery.StaleRestoresOvershootByTheLost` bounds the effect.

## Model

| member | source | states |
|---|---|---|
| Conservation.LedgerConservation | src/engine.rs:599-631 | after every legal run, for every executor: equity is the start plus all closed P&L, deployed capital is the cost of the open book, and free capital is the start minus all money spent on buys plus all money received for sells |
| Trades.TradeLogIsFaithful | src/engine.rs:484-521 | after every run there is exactly one closed trade per filled sell, in order; its cost and entry price are the total cost and the volume-weighted price of all slice fills of that position's life, its proceeds are the sale less the fee, it is marked conviction exactly if a tick of that life broke out, its reason applied to the position sold, and the sell was for exactly the quantity bought, at the tier of its mode |
| Trades.PositionCloses | src/engine.rs:508-521 | a position described by its life closes as a trade that sums up that life |
| Lifetime.PositionClosedForm | src/engine.rs:282-319 | a token is held exactly if its life has a fill; then quantity, cost and entry price are those of its fills, high water is the maximum over all fill and tick prices, last price and liquidity are those last seen, conviction means a breakout tick, and stuck means the failed exits reached the limit |
| Lifetime.PositionsAreSubstantial | src/engine.rs:614-621 | if every buy fill of the run had positive quantity, price and cost, every open position has positive quantity, cost and entry price |
| Lifetime.OrderIdsNeverRepeat | src/engine.rs:276-279 | on every reachable tape the order ids strictly increase and none exceeds the sequence counter |
| Solvency.FreeCapitalIsBounded | src/engine.rs:189-273 | if a buy costs at most its slice plus a slack and sells never cost money, free capital never drops below minus one slack per funnel slice in any run: overspending does not accumulate over positions |
| Solvency.OpenPositionsAreCapped | src/risk.rs:170-175 | no run ever holds more positions than configured |
| Breaker.BreakerMeansDayLoss | src/risk.rs:97-120 | with nondecreasing time, the day counter is the P&L of the trades closed on the control day, and the latch is set exactly if some prefix of that day's trades brought the sum to the limit or below |
| Breaker.EngagedBreakerStopsEntries | src/risk.rs:154-168 | while the kill switch is on (any events) or the latch is set (events of that day), no buy is submitted, the set of open mints only shrinks, and the breaker stays engaged |
| WorstDay.LatchedDayLosesAtMostDeployed | src/risk.rs:97-120 | in any run, once the latch is set, the rest of that day can cost at most the capital deployed at that moment, if no sell costs money and no buy has a negative cost |
| WorstDay.CrossedDayLosesAtMostAtWork | src/risk.rs:97-120 | if an event of a legal run crosses the loss limit of its day, that day never falls below the limit by more than the capital at work when the event began to sell |
| DayLimit.DayLossIsLimited | src/risk.rs:154-168 | in every legal run the day's P&L stays above the loss limit less the capital of a full book, every position at its cap: a bound from the configuration and the executor's slack alone |
| PaperRuns.PaperDayLossIsLimited | src/risk.rs:154-168 | the same for every paper run, at any prices, with fees of at most everything |
| Throttle.BuyRateIsBounded | src/risk.rs:187-217 | with nondecreasing time, every window of a minute holds at most the configured number of submitted buys, with any sells in between, provided fewer than 2^32 orders were submitted in the minute before each buy |
| Throttle.ThrottleAdmitsIff | src/risk.rs:187-198 | after any chronological run, a buy passes the throttle if and only if the number of orders of the last minute, modulo 2^32, is below the limit |
| Scenarios.RateLimitCanWrap | src/risk.rs:190-196 | a legal chronological run with a limit of one buy a minute that submits two at one instant, after 2^32 - 1 failed sells |
| Exits.NoPositionOutlivesItsLimit | src/engine.rs:324-361 | after any event at t, from any coherent state, each open position was opened less than its time limit ago (the flip limit or the conviction limit, in seconds), or is stuck, or had a sell fail during that event |
| Exits.NoTickIsIgnored | src/engine.rs:365-393 | after a tick of a held token it is sold, or a sell of it failed, or its price is under take-profit and above high water less the stop percentage (flip), or above high water less the trail percentage (conviction), or it was just promoted |
| SellRules.TickSendsIff | src/strategy.rs:113-160 | a tick of a held token sends one sell of the whole position, at the tick's price and liquidity, if and only if the gain, the fall from the highest price or the age say so; otherwise it only updates marks and mode |
| SellRules.SweepSendsTheDue | src/engine.rs:324-361 | a sweep sends exactly one sell for every open position that is not stuck and has reached its limit, at the price and liquidity last seen, and none for any other |
| SellRules.EverySellIsDue | src/engine.rs:324-393 | every sell on the tape of a legal run was for all of the position its life describes, at its last marks: a sweep sell past the time limit, a tick sell right after a tick at or past take-profit, stop, trail or limit |
| SellRules.TimeRule | src/strategy.rs:165-176 | the time rule fires exactly when the limit has passed, in nanoseconds, with the truncation to whole seconds spelled out |
| SellRules.PriceRule | src/strategy.rs:113-160 | the price rules sell, promote or hold exactly by gain over entry, fall from high water and age, and give a reason that applies |
| Entries.LaunchLaw | src/engine.rs:170-273 | after any chronological run, a launch that is not held, clean, and meets open controls and free capital sends the slices of what is affordable, at least one of them; any other launch sends nothing and changes neither book nor money |
| Entries.LaunchSends | src/engine.rs:170-273 | the same from any state; the funnel's orders are a prefix of the slices, in order, each for its own slice, at the launch's price and deadline; all but the last filled; and it stops early exactly when the last failed or the throttle refused the next |
| Entries.EveryBuyIsForACleanLaunch | src/strategy.rs:27-60 | every buy on the tape of a legal run was sent for a launch event of that run that is no honeypot, not held too much by its creator, and on the curve or liquid and renounced |
| Entries.RiskPerTradeHolds | src/strategy.rs:65-74 | what an event submits to buy is at most the risk share of the equity of that moment, the position cap and the free capital |
| Entries.FullFunnelSpendsItsBudget | src/engine.rs:207-273 | if no buy fails and the throttle has room, an admitted launch submits exactly what is affordable |
| Entries.FunnelSubmits | src/engine.rs:207-273 | a funnel never submits more than its budget, and all of it exactly if every slice was sent |
| Entries.PositionsAreLaunched | src/engine.rs:282-300 | every open position of a legal run belongs to a launch event of the run, on its launchpad |
| Exits.ControlsNeverBlockExits | src/risk.rs:200-207 | two engines that differ only in kill switch, latch, day counter and throttle window answer a price event with the same orders, book and money |
| Trail.TrailKeepsTheBreakout | src/strategy.rs:150-154 | in every reachable state the trailing stop of a conviction position is at least entry times (1 + promotion threshold) times (1 - trail), for a trail of at most 100% |
| Trail.TrailNeverFalls | src/strategy.rs:119-154 | between any two moments of one life of a position the trailing stop does not fall |
| Trail.SweepResubmissionIsBounded | src/engine.rs:337-356 | in one life of a position the sweep submits at most the configured number of sells, however many events arrive |
| Confluence.SweepClosedForm | src/engine.rs:324-361 | money, book, order window and closed trades after sweeping any list of positions, written as an order-free function of what each position's own sell does |
| Confluence.SweepIsConfluent | src/engine.rs:324-361 | with an executor that answers by content and not by id, any two sweep orders give the same equity, deployed capital, book, day P&L, order count, order window and multiset of closed trades |
| PaperRuns.PaperIsIdBlind | src/exec.rs:223-281 | a paper executor whose injected failures do not look at the order number answers by content, as the sweep theorems ask |
| LatchOrder.LatchClosedForm | src/risk.rs:108-120 | the latch after a sweep is set exactly if it was set on that day or some prefix of the sweep's trades reaches the limit |
| LatchOrder.UndecidedLatch | src/risk.rs:108-120 | if the latch is not set for today, and the sweep is not decided, losers first latches and losers last does not |
| LatchOrder.LatchConfluentIff | src/risk.rs:108-120 | all sweep orders leave the same latch if and only if it is set for today already, or all trades together reach the limit, or the losing trades alone do not; a latch left over from an earlier day is covered |
| LatchOrder.SweepsStartGuarded | src/engine.rs:146-155 | every state in which a legal run starts a sweep of some position is one in which that condition applies |
| LatchOrder.RunIsGuarded | src/risk.rs:108-120 | with a positive loss limit, a day of a legal run is above its limit unless it is latched |
| Scenarios.SweepOrderDecidesLatch | src/engine.rs:324-361 | two legal runs that differ only in the order of one sweep, one latched and the other not, with an executor that answers by content |
| Resume.ResumeIsExact | src/engine.rs:94-114 | restoring any snapshot of a reachable engine, at any boot time, yields its state field for field |
| Resume.SnapshotAcceptedIff | src/engine.rs:94-114 | a snapshot of a reachable engine is accepted if and only if no open position is empty, for every executor |
| Resume.AcceptedIffFiguresAddUp | src/engine.rs:94-114 | a restore accepts a snapshot of distinct tokens if and only if its equity, deployed capital, positions and trades add up, summed over the listed positions and trades |
| Resume.SubstantialSnapshotsAreAccepted | src/engine.rs:94-114 | if every buy fill the run got had positive quantity, price and cost, its snapshot is accepted |
| Resume.RestoresAreAccepted | src/engine.rs:94-114 | a deployment that got only such fills is never refused a restore, however often it crashes |
| Resume.CrashesAreInvisible | src/engine.rs:70-114 | any number of crashes between events, each followed by an accepted restore, leaves exactly the state of never having stopped |
| Resume.BuyRateSurvivesCrashes | src/risk.rs:129-147 | the buys-per-minute bound, under the same condition on the count, also holds over runs with crashes and restores |
| Resume.KillSurvivesRestore | src/risk.rs:141-147 | after a restore the kill switch is on exactly if the configuration or the snapshot has it on, and then no run from there buys anything |
| Resume.LaterPositionWins | src/engine.rs:94-114 | of two listed positions of one token the later is restored |
| Recovery.StaleRestoresOvershootByTheLost | src/liveloop.rs:256-263 | restoring from snapshots however old, every minute holds at most the limit of submitted buys plus the orders in it that a restore forgot; if none was forgotten, the limit holds |
| PaperRuns.NoFreeMoney | src/exec.rs:178-218 | in any paper run, every logged trade sold at a reference price no higher than that of each of its n buys gained at most (n + 1) * 0.5e-12, through every rounding |
| PaperRuns.SaleGain | src/engine.rs:484-521 | the same bound for one trade that sums up a life answered by the paper executor |
| PaperRuns.PaperSnapshotAcceptedIff | src/engine.rs:94-114 | the snapshot of a paper run is accepted if and only if every open position has a filled slice large enough to survive settlement |
| PaperTrading.BuyErrorBound | src/exec.rs:223-253 | the notional of a paper buy misses its slice by at most 0.5e-12 * (settled quantity + unrounded price + 1) |
| PaperTrading.BuyIsAccepted | src/exec.rs:223-253 | a paper buy fills exactly if it is not failed on purpose and budget and price are positive, at a price not below the reference |
| PaperTrading.SellBounds | src/exec.rs:255-281 | a filled paper sell settles at no more than the settled reference value, and yields nothing negative when the fee is at most everything |
| PaperTrading.PaperBuyClosedForm | src/exec.rs:104-253 | a paper buy fills above the reference price by the capped base and impact slippage of its budget, for the budget's worth at that price, with price, quantity, notional and fee settled in turn |
| PaperTrading.PaperSellClosedForm | src/exec.rs:104-281 | a paper sell is accepted exactly if it is not failed on purpose and quantity, reference price and slipped price are positive, and fills all of it at that price |
| PaperTrading.SubstantialExactlyIfNotDust | src/exec.rs:188-207 | a paper buy fill has positive quantity, price and cost if and only if price, quantity and their settled product exceed half a unit of the 12th place |
| PaperTrading.DustSettlesToNothing | src/exec.rs:188-207 | a slice for at most a tenth of a unit of the 12th place is filled and settles to zero quantity and zero cost |
| Scenarios.DustSnapshotIsRefused | src/engine.rs:614-621 | a legal paper run whose only position is empty, and whose snapshot is therefore refused |
| PaperTrading.PaperIsFaithful | src/exec.rs:59-95 | the paper executor meets the contract the engine theorems assume |
| PaperTrading.PaperStaysSolvent | src/exec.rs:223-253 | the solvency bound for paper trading, with an explicit slack, for positive launch prices within a range |
| PaperTrading.PaperStaysSolventAtAnyPrice | src/exec.rs:223-253 | the same bound at any prices, with a slack that the configuration alone determines |
| PaperTrading.FunnelBuysAtLeastAsMuch | src/exec.rs:104-116 | the funnel buys at least as many tokens, before settlement, as one order of the whole budget |
| Execution.SlippageBounds | src/exec.rs:104-116 | slippage is between zero and the cap and nondecreasing in the order size |
| Decimals.TiesGoToEven | src/exec.rs:204-207 | settlement sends a tie to the even neighbour |
| Strategy.SlicesAreExact | src/strategy.rs:79-93 | a total of at least a dollar a slice makes n slices, a smaller one makes one; they sum exactly to the total, are positive when it is, and all but the last are the largest whole number of dollars that fits n times |
| Strategy.BudgetIsCovered | src/strategy.rs:65-74 | the budget is the tightest of the risk share of equity, the position cap and the free capital, nothing when that is negative, and with positive equity positive exactly when there is free capital |
| Moves.EventKeeps | src/engine.rs:146-166 | a property kept by each enabled elementary move is kept by every event, for every sweep order and every reply |
| Moves.RunKeeps | src/engine.rs:146-166 | such a property holds after every legal run |
| Moves.RunIsCoherent | src/engine.rs:318 | every position is filed under its own mint and the controls' position count is the size of the book, always |
| Machine.LaunchIsNeverLate | src/engine.rs:171-214 | a launch judged at its own creation time is never too old and never past the funnel deadline |
| Engine.Engine.constructor | src/engine.rs:34-48 | a new engine is the initial state of the machine |
| Engine.Engine.OnEvent | src/engine.rs:146-166 | handles the event, then sweeps: exactly one legal step of the machine, keeping the book coherent |
| Engine.Engine.OnLaunch | src/engine.rs:170-206 | gates, controls, budget and funnel, as the machine prescribes |
| Engine.Engine.SendFunnel | src/engine.rs:207-273 | slices are sent in order until one does not fill |
| Engine.Engine.SendSlice | src/engine.rs:210-270 | one slice: skipped if late, refused by the throttle, or sent, logged and booked |
| Engine.Engine.NextOrderId | src/engine.rs:276-279 | order numbers are fresh |
| Engine.Engine.ApplyBuyFill | src/engine.rs:282-319 | a fill is merged into its position at the weighted average price |
| Engine.Engine.Merge | src/engine.rs:304-316 | one more slice fill in a position |
| Engine.Engine.SweepTimeStops | src/engine.rs:324-361 | all expired positions, collected before the first sell, are sold one by one |
| Engine.Engine.CollectExits | src/engine.rs:336-356 | the exits collected are those of all expired positions that are not stuck, and no others, in the order the map is met |
| Engine.Engine.OnPriceUpdate | src/engine.rs:365-393 | a tick marks the position, applies the price rules and sells if one fires |
| Engine.Engine.ClosePosition | src/engine.rs:405-544 | one sell attempt: settled into the ledger, or counted as a failure |
| Engine.Engine.CountFailedExit | src/engine.rs:431-445 | a failed exit is counted, and the position is stuck from the limit on |
| Engine.Engine.BookSale | src/engine.rs:484-521 | equity, deployed capital, day P&L, book and trade log after a filled sell |
| Engine.Engine.OpenMints | src/engine.rs:128-132 | the open mints, each once, in increasing order |
| Engine.Engine.CaptureState | src/engine.rs:70-82 | the snapshot lists the whole state, positions by mint |
| Engine.Engine.Restore | src/engine.rs:94-114 | accepts a snapshot exactly if its book is sound, and then is in the state it describes; otherwise the error names a violated invariant |
| Engine.Engine.CheckInvariants | src/engine.rs:599-631 | succeeds exactly on a sound book, and otherwise names an invariant that fails |
| Risk.RiskEngine.EngageKillSwitch | src/risk.rs:83-88 | sets the manual switch and nothing else |
| Risk.RiskEngine.ReleaseKillSwitch | src/risk.rs:90-92 | clears the manual switch; a loss latch of the day stays set |
| Risk.RiskEngine.MaybeRollover | src/risk.rs:97-105 | a new UTC day clears day P&L and latch, nothing else |
| Risk.RiskEngine.RecordRealizedPnl | src/risk.rs:108-120 | adds to the day's P&L and latches at the limit |
| Risk.RiskEngine.CheckEntry | src/risk.rs:154-183 | rolls over, prunes, and answers with the first control that refuses |
| Risk.RiskEngine.CheckOrder | src/risk.rs:187-198 | refuses over the per-minute limit, otherwise counts the order |
| Risk.RiskEngine.NoteSide | src/risk.rs:203-207 | sells are counted and never refused |
| Risk.RiskEngine.PruneOrders | src/risk.rs:209-217 | drops the leading order times that are a minute old |
| Risk.RiskEngine.RestoreState | src/risk.rs:141-147 | restores everything, and never clears an engaged kill switch |
| TokenBucket.Governor.Refill | src/live.rs:63-74 | adds the whole tokens earned, capped, and restarts the clock only if there are any |
| TokenBucket.Governor.TryTake | src/live.rs:77-85 | grants exactly if enough tokens are there after a refill |
| TokenBucket.GrantsSinceCreation | src/live.rs:46-86 | tokens granted since creation never exceed capacity plus rate times elapsed time |
| TokenBucket.GrantsInWindow | src/live.rs:46-86 | tokens granted in any window stay strictly below capacity plus accrual plus one, from any state |
| TokenBucket.ExtraTokenIsReal | src/live.rs:63-74 | two tokens within a nanosecond from a bucket of one: the plus one is needed |
| TokenBucket.PollingIsServed | src/live.rs:63-85 | however often a waiter polls, one of its polls is granted once twice its missing tokens have accrued, on top of what accrued between the two clock readings of each poll |
| TokenBucket.PromptPollingIsServed | src/live.rs:63-85 | twice the missing tokens suffice when the two readings agree |
| TokenBucket.GapIsLost | src/live.rs:63-74 | what accrues between the two readings of a refill is not granted: a second request is refused although two and a half tokens accrued |
| TokenBucket.EarnedIsExactIff | src/live.rs:64-68 | a refill measures every whole token that accrued if and only if they fit in 64 bits |
| TokenBucket.FastRefillWrapsAround | src/live.rs:68-69 | a valid bucket at 2^63 tokens a second and a poll for one token, two seconds after the last refill, that is refused |
| SlotClock.Clock.Insert | src/ingest.rs:250-257 | keeps exactly the 32,768 largest slots ever inserted, with their last stamps |
| SlotClock.Clock.Lookup | src/ingest.rs:262-265 | the stamp of the newest slot at or below the one asked for |
| SlotClock.NewestIsUnique | src/ingest.rs:242-258 | the map is a function of the set of insertions, not of their order |
| SlotClock.BoundedLookupRefines | src/ingest.rs:250-265 | a lookup equals the one of a clock that never forgets exactly if a slot at or below is still held or there never was one, is nothing otherwise, and never uses a later slot |
| Subscriptions.PlanTradeSubs | src/wsfeed.rs:422-445 | stale subscriptions in order, and new open mints in order while there is room |
| Subscriptions.PlanReconciles | src/wsfeed.rs:422-445 | the committed set is a subset of the open mints, keeps survivors, respects the cap, is full or complete, and replanning does nothing |
| Subscriptions.FirstComeFirstServed | src/wsfeed.rs:422-445 | when there is not room for all new open mints, exactly the first in order are chosen |
| Subscriptions.ServerStaysWithinCap | src/liveloop.rs:97-110 | after any prefix of the control messages the server watches no more than the cap: unsubscribing goes first |
| Subscriptions.TradeSubs.AfterEvent | src/liveloop.rs:364-404 | sends stop at the first failure and the plan is committed regardless |
| Subscriptions.ViewsAgreeIffDelivered | src/liveloop.rs:378-393 | client and server agree after an event if and only if every control message was delivered |
| Subscriptions.FailedSendIsNotRetried | src/liveloop.rs:380-384 | after a failed send the next plan is empty |
| Subscriptions.SubscriptionsTrackBook | src/liveloop.rs:378-393 | after every event of a run the subscribed set is a subset of the open mints within the cap, full or complete, and equals them if the cap covers the position limit |
| LiveLoop.HandleEvent | src/liveloop.rs:307-308 | one event handled and reconciled: a legal engine step, the committed plan for its open mints, and a server that agrees if every send succeeds |
| LiveLoop.HandleAll | src/liveloop.rs:256-358 | over a whole feed the subscribed set is the one the run prescribes; if no send fails and the cap covers the position limit, the server watches exactly the open mints |
| Decode.Cursor.U64 | src/decode.rs:55-60 | reads eight little-endian bytes and advances, or fails without advancing |
| Decode.Cursor.Str | src/decode.rs:62-70 | reads a length-prefixed valid string and advances; on failure the offset stays or has passed the length prefix |
| Decode.DecodeCreate | src/decode.rs:102-130 | the cursor loop computes the create specification |
| Decode.CreateRoundTrip | src/decode.rs:102-130 | an encoded create followed by any tail parses to itself, the tail deciding only the v2 flag |
| Decode.CreateReencodes | src/decode.rs:102-130 | a create that parses re-encodes to a prefix of its input |
| Decode.CreatePrefixRejected | src/decode.rs:62-78 | every strict prefix of an encoded create is rejected |
| Decode.DecodeTrade | src/decode.rs:158-188 | the cursor computes the trade specification |
| Decode.TradeParsesIffEncoded | src/decode.rs:158-188 | a trade parses if and only if the data starts with its encoding and the accounts name it |
| Decode.MigrateParsesIff | src/decode.rs:204-217 | a migration parses if and only if the data starts with its discriminator and there are ten accounts, which name mint, curve and pool |
| Decode.ForeignProgramsAreIgnored | src/decode.rs:102-217 | no instruction of another program is read |
| Decode.DecodersAreDisjoint | src/decode.rs:204-217 | at most one of the three instruction decoders accepts an instruction |
| Decode.DecodeCurveAccount | src/decode.rs:239-262 | the fixed offsets compute the curve specification |
| Decode.CurveParsesIffEncoded | src/decode.rs:239-262 | a curve account parses if and only if it starts with the encoded reserves and a matching flag byte |
| LiveFeed.HandleInstructions | src/ingest.rs:270-321 | the decoded events stably sorted by mint, and the count of pump instructions no decoder knows |
| LiveFeed.EveryInstructionCounts | src/ingest.rs:270-321 | events plus unknown instructions are exactly the pump instructions |
| LiveFeed.EventsMeanInstructions | src/ingest.rs:270-321 | an encoded trade or migration of the pump program yields the event with its own fields, and an instruction of another program yields none |
| LiveFeed.CreateBecomesEvent | src/ingest.rs:277-290 | an encoded create, with any tail, yields its create event |
| LiveFeed.CountsByKind | src/ingest.rs:501-505 | each kind of event is counted as itself |
| LiveFeed.StampedInOrder | src/ingest.rs:516 | every event is stamped once, in order |
| LiveFeed.Feed.ApplyBlockMeta | src/ingest.rs:443-447 | a known block time is stored in milliseconds |
| LiveFeed.Feed.StampEvents | src/ingest.rs:498-520 | all events of a slot are stamped, buffered in order and counted by kind, or all are counted as dropped |
| LiveFeed.Feed.ApplyTransaction | src/ingest.rs:452-521 | keeps: pump instructions seen = creates + trades + migrates + unknown + dropped, and stamped events = buffered + handed out |
| LiveFeed.Feed.PopRaw | src/ingest.rs:524-526 | events leave the buffer in order |
| Ordering.SortByIsStableSort | src/ingest.rs:319 | the sort used is a permutation, ordered by key, and keeps the order of equal keys |
| Ordering.LessIsLexicographic | src/ingest.rs:319 | the text order used is decided by the first place where two texts differ |

## Left out

- Decimals are exact reals with explicit rounding to 12 places, half to even; the 28-digit limit and overflow panics of the decimal library are not modelled.
- Integer widths: counters and sequence numbers are unbounded, except the order count (32 bits), the token bucket (64 bits) and slot numbers. A time limit of 2^63 seconds or more, which the original casts to a negative number, is not modelled.
- Throttle.BuyRateIsBounded: asks that fewer than 2^32 orders precede each buy within a minute, because the code truncates that count to 32 bits (Scenarios.RateLimitCanWrap breaks the limit otherwise).
- PaperTrading.PaperStaysSolvent: asks for a range of the positive launch prices, which makes its slack tight; PaperTrading.PaperStaysSolventAtAnyPrice asks for none, with a larger slack. Both ask for a fee of at most everything, since a larger one makes sells cost money.
- TokenBucket.PollingIsServed: asks that the tokens earned since the last refill fit in 64 bits at every poll, because the code truncates them (TokenBucket.FastRefillWrapsAround).
- Positions, fills and trades are values, and `Strategy.OnPrice` returns the updated position where the original updates it behind a reference.
- A snapshot is a value taken between two events. Serialisation, its version check, files, atomic renames and the database mirror are left out.
- Recovery.StaleRestoresOvershootByTheLost: speaks of the throttle only; after a restore from an older snapshot the book itself is the older one, and reconciling it with the chain is not modelled.
- The audit log, alerts, metrics and log lines are left out, and with them the reporting of breaker trips.
- Failure injection of the paper executor is an arbitrary predicate on order ids; the hash that drives it is not modelled.
- A paper buy with a zero fill price is rejected where the original would divide by zero; for a validated configuration it cannot occur (Execution.BuyPricePositive).
- Live executors, signing, the RPC and relay clients, tip tiers beyond their choice, and the enforcement of order deadlines by an executor are left out.
- Reconnecting, resubscribing after a reconnect, streaming and the `select!` loops are left out; awaiting an order is a plain call.
- Base58 encoding and account-index lookup happen before the model: instructions arrive with account strings. UTF-8 validity is an arbitrary predicate on bytes, and the creator key stays in bytes.
- The keyless WebSocket trade variant, price extraction from floats, curve prices and the StonkFun launch list are left out.
- Configuration parsing and key loading are left out; a configuration is a record that satisfies the validated bounds.
