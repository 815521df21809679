# A verified model of MellaFx

MellaFx is a prop-trading platform: traders buy a challenge, trade it live against risk limits, move through phases to a funded account and withdraw a share of the profit. This project models the parts of it that decide money and status - the live execution engine, its session clock and risk rules, the challenge life cycle, candles and their storage, payouts, SMS codes, the outbound coalescer and the CSV splitter - and proves what they keep over whole runs, for every interleaving.

`dafny verify dfyconfig.toml` checks everything.

## How it is modelled

- **Time, money, volume.** Instants are whole milliseconds, money whole cents, accepted volumes whole hundredths of a lot. Prices, FX rates and P&L before rounding are reals, and rounding is written out where the code rounds.
- **Awaits.** Between two awaits the code runs without interruption, so a step is one synchronous piece: an event (tick, timer, client message, reload, clock), the start of the operation at the head of an account's queue, or its resumption after an await. Events may fall between any two pieces of an operation, and so may refunds and resets that close OPEN rows behind the engine and payouts that move the balance. Evaluations, payout decisions and code verifications are likewise split into their read and their conditional write.
- **Objects.** Code that updates fields in place is a class (`LiveEngine.LiveAccount`, `AccountQueue.Engine`, `EngineIndex.Engine`, `ChallengeLifecycle.ChallengeStore`, `Candles.CandleBuilder`, `CandleStore.CandlePersister`, `Payouts.PayoutDesk`, `PhoneOtp.OtpDesk`, `Coalescer.Coalescer`, `DailyReset.AnchorTimer`). Each method is proved to do what a transition function says, and the invariants are proved about runs of those functions. In `LiveEngine` the source's loops are loops; a piece of code without one is its transition function, assigned to the fields. A JavaScript Map is a map with the insertion order of its keys.
- **The ledger.** Opening adds an OPEN row; closing claims the row, removes volume, records a trade and credits the balance by gross less commission, and leaves a row that is not OPEN alone (src/lib/services/tradeLedger.ts:176-181). A refund or a reset closes rows without a trade.
- **The zone database** is a function from instants to offsets with two values, -5 h and -4 h, that does not change between 20:45 and 22:00 UTC. Nothing is assumed about any other instant, so a change of clocks inside the weekend window is covered.

| file | what it holds |
|---|---|
| `Options`, `Division`, `Money` | options, quotients, cents and their rounding |
| `TradingMath`, `Sessions`, `DailyReset`, `ChallengeRules` | the pure rules the engine uses |
| `TradingLaws` | what the trading formulas come to, side by side |
| `Live` | one tracked account as a state machine |
| `LiveBooks`, `LiveHolding`, `LiveFrames` | what every step keeps: the books, the holding rules, one-way facts |
| `LiveTicks`, `LiveOrders`, `LiveCloses`, `LiveFigures` | what a tick, an order, a close and a reload come to: prices, levels, money |
| `LiveSafety`, `LiveRisk`, `LiveBreach`, `LiveVolumes` | what whole runs guarantee |
| `LiveSweeps` | when a holding rule's sweep is queued, and that it is followed through |
| `LiveEngine` | the account as an object, method by method |
| `AccountQueue`, `EngineIndex` | the per-account queues and the per-symbol indexes |
| `ChallengeLifecycle`, `ChallengeOutcomes` | evaluations, phases, frozen chains, refunds; what each step writes |
| `Candles`, `CandleShapes`, `CandleStore` | the bar builder, what a bar shows of its ticks, persistence and restart |
| `Payouts`, `PayoutTrail`, `PhoneOtp`, `PhoneCodes`, `CsvLine`, `Coalescer` | the smaller protocols |

## Where a promise needs a condition

- Rounding a volume to hundredths keeps it on its step exactly when the step is whole hundredths (`TradingMath.RoundingKeepsGridIff`).
- A finished sweep binds through a new catalogue exactly when nothing the account still has open and unmarked, queued to trigger, in flight or (for the weekend) resting is on a symbol that turns into a session instrument (`LiveHolding.CatalogueBindsIff`), and through every later catalogue exactly when nothing of it is on a symbol that is not loaded (`LiveHolding.EveryCatalogueBindsIff`). Over whole runs the holding invariant holds at every moment exactly when every catalogue change is tame in that sense (`LiveHolding.RunHoldsIff`). What the rule is for - session positions on their way out, no session order resting - survives a catalogue change exactly when the account keeps nothing unmarked and, for the weekend, nothing resting on a symbol that turns (`LiveSafety.CatalogueUnbindsIff`); in runs whose catalogues change only while nothing is queued or in flight it holds at every moment exactly when every change is tame (`LiveSafety.HoldingRuleBindsIff`). In any New York weekend an account loaded with a position on an instrument that is not loaded escapes its sweep in three steps (`LiveSafety.LoadedInstrumentEscapes`).
- From the first second of its window on a holding rule is followed through: a sweep of that window is queued, in flight, or done and binding, unless the account is flagged or leaving or a sweep failed less than a minute ago (`LiveSweeps.RuleIsEnforced`); a second queues one exactly when `LiveSweeps.SecondSweepsIff` says.
- An accepted resting order is marketable at once exactly when rounding its price takes it to the quote or past it (`TradingMath.AcceptedPendingTriggersIff`): at bid 1.2345 and ask 1.2346 with four digits a BUY LIMIT at 1.23456 is accepted and rests at 1.2346.
- A merge makes memory and the OPEN rows equal exactly when no position that is already closing has lost its row (`LiveSafety.MergeRestoresMirror`).
- A payout of the whole profit leaves the live drawdown check silent exactly when the limit does not trail or the peak in memory is still below the starting balance plus the limit (`LiveRisk.WholeProfitPaidFailsIff`): the payment lowers the recorded peak, the engine keeps the greater one.
- A reset puts the recorded peak back too, and the recorded rules never fail the account it restarts; the engine fails it exactly when the limit trails and its old peak had reached the starting balance plus the limit (`LiveRisk.ResetFailsIff`).
- After a breach no row stays OPEN, exactly except those the handling could not close - no quote, no instrument, no rate, or a close that failed - and that were not closed elsewhere (`LiveBreach.BreachLeavesOpen`, `LiveBreach.LeftStaysOpen`).
- Over any sequence of operations the per-symbol indexes stay exact if and only if no object is added under an id that is taken, none is removed while another has its id, and no account object goes that still holds something (`EngineIndex.ExactThroughoutIff`); once inexact they stay so (`EngineIndex.InexactForGood`), and two overlapping loads of one account make them so (`EngineIndex.OverlappingLoads`).
- A frozen chain bounds the accounts of a purchase in every run if and only if it ends at a template without a successor or contains a funded phase (`ChallengeLifecycle.FamilyBoundedIff`); the walk that freezes it ends at such a template exactly as `ChallengeLifecycle.FreezeIsWholeIff` says, and with two active templates that name each other there is a run with any number of accounts (`ChallengeLifecycle.CircleGrows`).
- A refund stops every account that came from the purchase, in every run, if and only if the frozen chain ends in that sense (`ChallengeLifecycle.RefundStopsFamilyIff`): otherwise a run makes any number of accounts (`ChallengeLifecycle.CutOffGrows`), and the walk of four does not reach the sixth.
- The incremental bar equals the aggregated one after every tick if and only if no late tick was absorbed by a coarser bar (`Candles.BuilderAgreesIff`).
- A shutdown stores every tracked bar, and a run with any number of restarts loses none, if and only if each final flush finds none in flight or nothing new (`CandleStore.FinalFlushStoresAllIff`, `CandleStore.NothingLostIff`): one that finds another in flight returns at once.
- A CSV round trip gives the same list if and only if the list is not empty and its fields are trimmed (`CsvLine.RoundTripIff`).

## Where the code and its comments disagree

The code is followed. A LIMIT order is said to fill at its own price, but `pendingFillPrice` takes the better of that price and the market (src/trading/math.ts:86-90). Bar times are said to be seconds on the wire, but they are milliseconds throughout (src/trading/protocol.ts:21-22, src/trading/candles.ts:3-11). The purchase snapshot is said to freeze the whole chain, but it stops after four templates or at a repeated one (src/lib/services/purchases.ts:17-32). A restart is said to create no gap (src/trading/candleStore.ts:45); that needs a final flush that found none in flight or nothing new. A payout is said not to count as a losing move because every drawdown reference is shifted with it (src/lib/services/payouts.ts:213-215), but the engine's merge keeps the greater of its own peak and the row's (src/trading/engine.ts:377).

## Model

| member | source | states |
|---|---|---|
| `Money.RoundCents` | src/lib/services/calculations.ts:145-148 | the nearest cent, with the sign of the amount |
| `Money.RoundCentsOdd` | src/lib/services/calculations.ts:145-148 | a loss is rounded like the gain of the same size, halves away from zero |
| `Money.RoundCentsShift` | src/lib/services/calculations.ts:145-148 | amounts that differ by a whole number of cents to half a cent differ by it to one cent after rounding |
| `TradingMath.RoundingKeepsGridIff` | src/trading/math.ts:112-150 | storing a valid volume in hundredths changes no volume on the step grid, exactly when the step is whole hundredths |
| `TradingMath.PiecewiseCloseNearWhole` | src/trading/math.ts:37-39 | closing in n pieces at one price and rate pays within (n + 1) / 2 cents of closing at once |
| `TradingMath.AcceptedPendingTriggersIff` | src/trading/math.ts:80-84 | an order that passes the price check and rests at its rounded price is marketable at that quote exactly when rounding took it over the edge; one asked for on the grid never is |
| `TradingLaws.GainBySide` | src/trading/math.ts:12-39 | a buyer gains the rise times contract size and rate and a seller its negative, so each gains exactly when the price moves its way |
| `TradingLaws.SpreadIsPaid` | src/trading/math.ts:19-27 | a fill valued at the same quote has lost the spread, on either side |
| `TradingLaws.StopsFireIff` | src/trading/math.ts:54-69 | a stop or a target fires exactly when the closing side of the quote is at or past it on the losing or the winning side, the stop first |
| `TradingLaws.StopsValidIff` | src/trading/math.ts:121-132 | levels pass exactly when positive and on the losing and the winning side of the reference; the stop is judged first |
| `TradingLaws.StopsAreWorth` | src/trading/math.ts:121-132 | positive levels pass exactly when closing there from the reference would lose money at the stop and make money at the target |
| `TradingLaws.RestingPriceValidIff` | src/trading/math.ts:134-145 | a price passes exactly when it is positive and the order is not marketable yet |
| `TradingLaws.FillsAtMarket` | src/trading/math.ts:86-90 | a triggered order fills at the market, which for a LIMIT is its price or better |
| `TradingLaws.MarginIsNotional` | src/trading/math.ts:42-50 | margin times leverage is the notional to half a cent of margin; a leverage that is not positive counts as one |
| `TradingLaws.VolumeValidIff` | src/trading/math.ts:112-119 | a volume passes exactly when it is positive, within the bounds and a whole number of steps |
| `TradingLaws.HundredthsNearest` | src/trading/math.ts:147-149 | a volume in hundredths is the nearest to the one asked for |
| `TradingLaws.RoundPriceNearest` | src/trading/math.ts:14-17 | a rounded price is a whole number of points, the nearest |
| `Sessions.WallTimeRightInverse` | src/trading/sessions.ts:51-66 | reading the clock at the instant found for a session wall time gives that wall time back |
| `Sessions.FxWeek` | src/trading/sessions.ts:85-106 | every instant lies from one Sunday 17:00 up to the reopen that ends its week, with the cutoff before that reopen |
| `Sessions.WeekdaysGoRound` | src/trading/sessions.ts:36-49 | weekdays follow each other from Thursday, 1 January 1970 |
| `Sessions.CutoffConstantOnWindow` | src/trading/sessions.ts:90-112 | the weekend cutoff and reopen are constant on their own window |
| `Sessions.WeekendClosedWindow` | src/trading/sessions.ts:79-83 | the field-based closing check holds exactly from fifteen minutes after the cutoff until the reopen |
| `Sessions.RolloverWindow` | src/trading/sessions.ts:115-140 | the field-based rollover check holds exactly from the daily cutoff until the daily rollover |
| `Sessions.RolloverConstantOnWindow` | src/trading/sessions.ts:115-140 | the daily cutoff and rollover are constant on their own window |
| `Sessions.WeekendShows` | src/trading/sessions.ts:90-107 | New York clocks show Friday 16:45 at the weekend cutoff and Sunday 17:00 at the reopen |
| `Sessions.RolloverShows` | src/trading/sessions.ts:115-140 | and 16:55 and 17:00 of one day from Monday to Friday at the rollover's cutoff and end |
| `Sessions.FindDailyRolloverCutoff` | src/trading/sessions.ts:115-127 | the backward loop finds the latest weekday 16:55 at or before the instant |
| `Sessions.DaysBack` | src/trading/sessions.ts:118-126 | the loop always returns from inside: the throw after it is unreachable |
| `DailyReset.DayStartUnique` | src/lib/services/dailyReset.ts:44-60 | the current day start is the one boundary in the last 24 hours, for every offset and reset time |
| `DailyReset.BoundaryShows` | src/lib/services/dailyReset.ts:44-60 | in the reset zone a boundary shows the configured hour and minute |
| `DailyReset.KeyMatchesDayStart` | src/lib/services/dailyReset.ts:73-76 | two instants share a trading-day key exactly when they share their day start |
| `DailyReset.ResetDueByKey` | src/lib/services/dailyReset.ts:68-70 | a reset is due exactly when the anchor belongs to an earlier trading day |
| `DailyReset.AnchorTimer.SecondTick` | src/trading/engine.ts:664-678 | the timer moves to the next boundary and takes the current one, once due and not breaching |
| `DailyReset.CapturedOnce` | src/trading/engine.ts:664-678 | on any clock the captured boundaries strictly increase, so none is captured twice |
| `DailyReset.CapturedExactly` | src/trading/engine.ts:664-678 | on a clock that does not go back exactly the boundaries of the later days seen are captured |
| `ChallengeRules.TrailingFloorBracket` | src/lib/services/challengeRules.ts:66-80 | the trailing floor lies between the static floor and the starting balance, rises with the peak and locks at break-even |
| `ChallengeRules.LiveCheckAgreesWithRules` | src/lib/services/challengeRules.ts:102-149 | on the same figures the live check and the recorded decision fail a tradable account together and for the same reason |
| `ChallengeRules.FloorsLieAt` | src/lib/services/challengeRules.ts:60-86 | each floor lies its percentage below the starting balance or the anchor, to half a cent; the trailing one rises with the peak up to the starting balance; less than half a cent switches it off |
| `ChallengeRules.DecisionIff` | src/lib/services/challengeRules.ts:102-163 | exactly when an account fails for each reason, passes, or is left alone: floors first, then the target in money, days and consistency, then expiry |
| `ChallengeRules.ManualTransitionIff` | src/lib/services/challengeRules.ts:200-217 | a manual change never leaves or reaches PASSED, reaches only the tradable status of the phase and only from one that is not, and leaves FAILED only for it |
| `Live.CheckOrder` | src/trading/engine.ts:913-976 | an order that is not refused is on a tradable account and a loaded instrument in an open market, under no restriction, of a valid volume within the size and position limits, and a fill is covered by free margin |
| `Live.CloseVolume` | src/trading/engine.ts:1064-1075 | a manual close takes the whole position, or a part that its instrument accepts, as it does the rest |
| `LiveOrders.OrderAcceptedIff` | src/trading/engine.ts:913-978 | an order is accepted exactly when the account trades, the symbol is open to it and freshly quoted, volume, counts, price and levels fit and the margin is affordable; then it becomes what was asked, at the ask or the bid, or resting at its rounded price |
| `LiveOrders.MarketOrderOpens` | src/trading/engine.ts:932-964 | an accepted market order becomes one OPEN row and one position with its own side, volume, levels and margin, entered at the ask or the bid |
| `LiveOrders.RestingOrderRests` | src/trading/engine.ts:966-1002 | an accepted LIMIT or STOP rests as it was asked for, PENDING in the ledger |
| `LiveOrders.RefusedOrderDoesNothing` | src/trading/engine.ts:890-1007 | a refused, repeated or failed order opens and rests nothing |
| `LiveOrders.RefusalRecordedIff` | src/trading/engine.ts:890-917 | a refusal is recorded as REJECTED under a new id, unless the account is off or a tradable account asked for a symbol that is not one to trade |
| `LiveOrders.TriggeredOrderFills` | src/trading/engine.ts:1010-1051 | a triggered order fills at the market of the quote that triggered it, with its own side, volume and levels |
| `LiveTicks.TickFlagsIff` | src/trading/engine.ts:514-531 | a tick flags a position exactly when it is on the symbol, the market is open, neither it nor the account is on the way out, and the quote reached its stop or target; and queues its close at that level, the stop first |
| `LiveTicks.TickTriggersIff` | src/trading/engine.ts:533-548 | a tick sets a resting order off exactly when the market has come to its price and no rule keeps the account out; and queues its fill at this quote |
| `LiveTicks.TickRevalues` | src/trading/engine.ts:561-570 | a tick revalues every position on its symbol at the closing side of the quote, and no other |
| `LiveTicks.TickEquity` | src/trading/engine.ts:550-584 | after a tick equity is the balance and what every held position has gained, each once, in whatever order |
| `LiveTicks.TickFlagsAccountIff` | src/trading/engine.ts:550-621 | a tick flags the account exactly when it holds the symbol, the market is open, nothing held is stale and equity has come down to a floor |
| `LiveCloses.BeganClosePays` | src/trading/engine.ts:1053-1101 | every close an operation starts is priced by its kind: a trader's at the fresh quote for the volume asked, a stop's at its level, a sweep's at the quote or the last mark, a breach's and an administrator's at the quote |
| `LiveCloses.ResumedClosePays` | src/trading/engine.ts:623-642 | and so is every next close of a loop |
| `LiveCloses.ResumedCloseRecords` | src/lib/services/tradeLedger.ts:170-257 | the ledger books one trade of what was closed, credited with the gain less the commission, and leaves the rest its share of the margin to half a cent; a row closed elsewhere is left alone |
| `LiveCloses.CloseVolumeIs` | src/trading/engine.ts:1061-1071 | what a close request asks for: all of it, or a part if both parts are volumes of the instrument |
| `LiveCloses.CloseByHandPays` | src/trading/engine.ts:1053-1143 | a whole close by hand is one trade, credited at the quote, and the position is gone from memory and rows |
| `LiveCloses.StopCloses` | src/trading/engine.ts:1087-1143 | a queued stop closes its position whole, at its level |
| `LiveCloses.LastCloseLeaves` | src/trading/engine.ts:1134-1140 | when the rules passed or failed the account on a close it goes off, its resting orders first |
| `LiveCloses.RoundTripCostsSpread` | src/trading/math.ts:19-39 | in and out at one quote on the grid, through the queue and the ledger, costs exactly the spread and the commission, on either side |
| `LiveFigures.ReloadedFigures` | src/trading/engine.ts:373-386 | after a reload status, balance and anchor are the row's, the peak is the greatest, and equity and margin are up to date |
| `LiveFigures.StoppedRowEmpties` | src/trading/engine.ts:299-303 | a row that trades no more only has the account emptied in its turn |
| `LiveFigures.ClosedFigures` | src/trading/engine.ts:1117-1133 | after a close memory has the row's figures; what is left of the position has its row's volume and margin, is not closing any more and is revalued at the close's quote |
| `LiveFigures.CaptureAnchors` | src/trading/engine.ts:661-680 | a captured boundary anchors the day's loss at the equity of the moment |
| `LiveFigures.FailureShows` | src/trading/engine.ts:643-652 | a recorded failure shows in memory with the ledger's balance, and the account goes off |
| `LiveFigures.LoadedFigures` | src/trading/engine.ts:309-371 | a loaded account has its row's figures, or those the rules left, or its equity as the anchor, with everything it holds counted |
| `LiveFigures.ModifySetsLevels` | src/trading/engine.ts:1154-1177 | new levels take hold, in memory and in the row, exactly when they fit the price of the moment; what is not mentioned stays |
| `LiveBooks.RecordCloseKeepsLedger` | src/lib/services/tradeLedger.ts:170-246 | a close keeps every position's closed, open and voided volume adding up to its lots; a row that is not OPEN is left alone |
| `LiveBooks.CloseElsewhereKeepsLedger` | src/lib/services/purchases.ts:490-512 | so do rows closed by a refund or a reset, which take their volume with them, and a moved balance |
| `LiveBooks.MergeRowThins` | src/trading/engine.ts:373-386 | a merge drops exactly the positions without an OPEN row that are not closing, and adds nothing |
| `LiveBooks.EventKeepsBooks` | src/trading/engine.ts:500-559 | an event between two pieces of an operation keeps the books, whether it comes from the market, the client, the timer or the database |
| `LiveBooks.BeginKeepsBooks` | src/trading/engine.ts:475-494 | starting the operation at the head of the queue keeps the books |
| `LiveBooks.ResumeKeepsBooks` | src/trading/engine.ts:1087-1143 | resuming after an await keeps the books, whether the call succeeded or not and whether the row was still OPEN or not |
| `LiveBooks.RunKeepsBooks` | src/trading/engine.ts:475-1205 | over any run memory holds every open row and besides only rows closed elsewhere, volumes are conserved, orders settle once and the position limit holds |
| `LiveHolding.NewYorkStays` | src/trading/sessions.ts:90-140 | a holding window, once open, is the same window until its end, on the New York calendar |
| `LiveHolding.Unrestricted` | src/trading/engine.ts:695-706 | with a holding rule in force only crypto instruments escape the restriction |
| `LiveHolding.SweepSeesNoTriggers` | src/trading/engine.ts:533-548 | triggers queued behind a sweep of a still-open window are on crypto instruments |
| `LiveHolding.SweepFinishHolds` | src/trading/engine.ts:740-779 | a sweep that ends without a failure leaves the account quiet until its window ends |
| `LiveHolding.CatalogueBindsIff` | src/trading/engine.ts:746-749 | under a finished sweep a new catalogue leaves the account bound exactly when it turns no symbol into a session instrument that the account still has something unmarked, queued, in flight or (for the weekend) resting on |
| `LiveHolding.EveryCatalogueBindsIff` | src/trading/engine.ts:746-749 | a finished sweep binds through every later catalogue exactly when nothing it skipped is on a symbol that is not loaded |
| `LiveHolding.StepHoldsIff` | src/trading/engine.ts:475-779 | a catalogue change keeps the holding invariant exactly when it is tame; every other event, start and resumption always does |
| `LiveHolding.RunHoldsIff` | src/trading/engine.ts:475-779 | over any run the invariant holds at every moment exactly when every catalogue change is tame |
| `LiveFrames.NextAdmits` | src/trading/engine.ts:959-1048 | only a fill adds a position and only an accepted resting order adds one to the list |
| `LiveFrames.RunOneWay` | src/trading/engine.ts:572-583 | along a run the peak never falls and the breach flag and the end of tracking are never taken back |
| `LiveSafety.TrackedIsFresh` | src/trading/engine.ts:299-371 | loading an account from consistent rows, re-anchored or not, establishes everything the run properties start from, unless the rules end it there |
| `LiveSafety.ClosedOnceAndConserved` | src/trading/engine.ts:1053-1143 | however stop, manual, breach and sweep closes interleave with each other and with refunds and resets, a position ends at most once, and closed, open and voided volume is what was opened |
| `LiveSafety.MemoryMirrorsRows` | src/trading/engine.ts:373-386 | while tracked, memory holds every open row as it is, and besides exactly what was closed elsewhere since the last merge |
| `LiveSafety.MergeRestoresMirror` | src/trading/engine.ts:373-386 | a merge makes the two equal, exactly when no closing position has lost its row |
| `LiveSafety.BalanceIsCredits` | src/lib/services/tradeLedger.ts:216-238 | the balance is what was there at the load, plus gross less commission of every close, plus what payouts and resets moved |
| `LiveSafety.NoStopMissed` | src/trading/engine.ts:518-530 | after a tick in an open market no held position is left with a reached stop or target and no close queued |
| `LiveSafety.NoTriggerMissed` | src/trading/engine.ts:533-548 | after a tick in an open market every resting order it reached is triggering, unless a rule holds it back |
| `LiveSafety.RestedOrderTriggersIff` | src/trading/engine.ts:961-1000 | an order the engine accepts to rest is marketable at that very quote exactly when rounding took it over the edge |
| `LiveSafety.AnchorTimerRefines` | src/trading/engine.ts:664-678 | the account's timer is the anchor timer, queueing a capture exactly when that takes a boundary |
| `LiveSafety.LimitHolds` | src/trading/engine.ts:927 | positions, resting orders and the order being placed never exceed the account's limit |
| `LiveSafety.OrdersEndOnce` | src/trading/engine.ts:1010-1051 | an order is reported at most once, never both filled and cancelled, and one that rests is unreported |
| `LiveSafety.HoldingRuleBinds` | src/trading/engine.ts:695-779 | after a clean sweep and until the window ends, every session position held is closing with its close queued, in flight or failed, and for the weekend no session order rests |
| `LiveSafety.HoldingRuleAdmitsNothing` | src/trading/engine.ts:695-779 | and no step opens a position or rests an order on a session instrument |
| `LiveSafety.CatalogueUnbindsIff` | src/trading/engine.ts:727-779 | in any New York run with a clean sweep, the next catalogue leaves it holding good exactly when it turns no symbol into a session instrument on which the account holds something unmarked or, for the weekend, rests an order |
| `LiveSafety.HoldingRuleBindsIff` | src/trading/engine.ts:695-779 | with catalogues that change only at rest, every clean sweep holds good at every moment of the run exactly when no change turns a symbol the sweep skipped |
| `LiveSafety.NoSecondSweep` | src/trading/engine.ts:713-737 | until the reopen no second queues another sweep for a cutoff that was swept |
| `LiveSafety.LoadedInstrumentEscapes` | src/trading/engine.ts:262-270 | in any New York weekend: load, sweep, and an instrument loaded afterwards leave an unmarked session position that nothing will sweep |
| `LiveSweeps.SecondSweepsIff` | src/trading/engine.ts:713-737 | a second queues a weekend sweep exactly when the account may not hold over the weekend, its window is open and its cutoff was not swept, and an overnight sweep exactly when no weekend rule binds and the same holds of the rollover |
| `LiveSweeps.FailedSweepRetries` | src/trading/engine.ts:769-774 | a sweep with a failure is queued again by a second of the same weekend a minute later, not before |
| `LiveSweeps.FailedRolloverRetries` | src/trading/engine.ts:769-774 | and so a rollover sweep |
| `LiveSweeps.RuleIsEnforced` | src/trading/engine.ts:713-779 | from the first second of a window on, in every New York run: a sweep of this window is queued or in flight, or done and binding, unless the account is flagged or leaving or a sweep failed within the minute |
| `LiveRisk.PeakAndFloorNeverFall` | src/trading/engine.ts:572-601 | along any run the high-water mark and the max-drawdown floor never decrease |
| `LiveRisk.BreachHandledOnce` | src/trading/engine.ts:603-652 | a flagged account always has exactly one breach handling queued or in flight until it is off, and none is lost |
| `LiveRisk.EvaluatedTick` | src/trading/engine.ts:551-621 | an evaluated account is flagged or strictly above both floors, and is newly flagged exactly when the recorded rules fail the same figures, for their reason |
| `LiveRisk.PaymentReachesEngine` | src/trading/engine.ts:373-386 | after a payment and the reload it asks for, the equity is lower by what was consumed and the peak in memory is not |
| `LiveRisk.WholeProfitPaidFailsIff` | src/lib/services/payouts.ts:207-224 | with the whole profit paid out the engine fails the account exactly when the limit trails and the peak had reached the starting balance plus the limit; the recorded rules, exactly when the lowered peak still does |
| `LiveRisk.PaymentSplitsTheChecks` | src/lib/services/payouts.ts:213-224 | after any payment the two checks disagree exactly when the equity left lies above the recorded floor and not above the one in memory |
| `LiveRisk.ResetReachesEngine` | src/lib/services/challengeEngine.ts:404-431 | after a reset and the reload, nothing is held and equity and anchor are the starting balance, but the peak in memory is the greater of the old one and the starting balance |
| `LiveRisk.ResetFailsIff` | src/trading/engine.ts:373-386 | the recorded rules never fail the account that was reset; the live check fails it exactly when the limit trails and the old peak had reached the starting balance plus the limit |
| `LiveBreach.BreachLeavesOpen` | src/trading/engine.ts:623-643 | when the breach handling of a tracked account asks for the failure, the OPEN rows are exactly those it passed over for want of a quote, an instrument or a rate, or whose close failed, whatever came in between |
| `LiveBreach.EmptyingLeavesOpen` | src/trading/engine.ts:1195-1215 | when an emptying for an administrator ends, the account is off and the OPEN rows are exactly those it could not close |
| `LiveBreach.LeftStaysOpen` | src/trading/engine.ts:643-652 | and from then on a row stays OPEN until it is closed elsewhere |
| `LiveVolumes.VolumesStayValid` | src/trading/engine.ts:1053-1082 | with whole-hundredth steps every held and resting volume stays one its instrument accepts, however it is closed in parts |
| `LiveEngine.LiveAccount.constructor` | src/trading/engine.ts:299-371 | an account is loaded row by row, marked where there is a quote, and re-anchored when a boundary went by |
| `LiveEngine.LiveAccount.Recompute` | src/trading/engine.ts:572-584 | floating, margin, equity and peak from the positions |
| `LiveEngine.LiveAccount.TickPosition` | src/trading/engine.ts:518-530 | one position is marked and, when a stop is reached, flagged with its close queued |
| `LiveEngine.LiveAccount.TickOrder` | src/trading/engine.ts:535-548 | one resting order triggers unless a rule keeps it |
| `LiveEngine.LiveAccount.HoldsStaleSymbol` | src/trading/engine.ts:586-589 | true exactly when a held symbol is stale |
| `LiveEngine.LiveAccount.OnTick` | src/trading/engine.ts:500-559 | the loops over positions and orders, then the breach check, do what the tick transition says |
| `LiveEngine.LiveAccount.MergeRow` | src/trading/engine.ts:373-386 | rows missing in memory are added, positions without a row are dropped unless closing |
| `LiveEngine.LiveAccount.FlattenForRule` | src/trading/engine.ts:740-774 | the flattening loop up to its next await, failures counted |
| `LiveEngine.LiveAccount.CloseEverything` | src/trading/engine.ts:623-652 | the loop that empties an account for a breach or an admin, up to its next await |
| `LiveEngine.LiveAccount.FinishClose` | src/trading/engine.ts:1118-1143 | what follows the ledger call of a close, for every kind of close |
| `LiveEngine.LiveAccount.CancelOrders` | src/trading/engine.ts:1180-1193 | each listed order is cancelled if still pending, reported and dropped |
| `LiveEngine.LiveAccount.Take` | src/trading/engine.ts:475-1205 | any step of the object is the step of the model, and keeps the books |
| `AccountQueue.Engine.Enqueue` | src/trading/engine.ts:475-483 | the operation is counted, waits for the tail's promise and becomes the tail |
| `AccountQueue.Engine.CleanUp` | src/trading/engine.ts:484-492 | the settled operation is counted out, its entry dropped if it is the tail, waiters released at zero |
| `AccountQueue.Engine.Idle` | src/trading/engine.ts:253-256 | resolves at once when nothing is in flight, else waits |
| `AccountQueue.OneAtATimeInOrder` | src/trading/engine.ts:475-494 | operations of one account run one at a time in submission order, failures included |
| `AccountQueue.CountersTellTheTruth` | src/trading/engine.ts:475-494 | the in-flight count is the number of unsettled operations, and an entry exists exactly while its tail is unsettled |
| `AccountQueue.ReleasedOnlyWhenIdle` | src/trading/engine.ts:487-491 | an idle caller is let go only when every operation submitted so far has settled |
| `AccountQueue.NobodyForgotten` | src/trading/engine.ts:487-491 | once everything has settled nobody waits and no entry is left |
| `AccountQueue.NeverStuck` | src/trading/engine.ts:475-494 | behind every unsettled operation some operation of its account can move |
| `EngineIndex.Engine.AddPosition` | src/trading/engine.ts:388-416 | the new object joins account and index; one it replaces is astray |
| `EngineIndex.Engine.RemovePosition` | src/trading/engine.ts:418-421 | the account's entry and the given object leave |
| `EngineIndex.Engine.AddPending` | src/trading/engine.ts:423-445 | the same for resting orders |
| `EngineIndex.Engine.RemovePending` | src/trading/engine.ts:447-450 | the same for resting orders |
| `EngineIndex.Engine.MergeRow` | src/trading/engine.ts:381-384 | exactly the listed rows and the closing positions stay, as the same objects, and nothing goes astray |
| `EngineIndex.Engine.Untrack` | src/trading/engine.ts:452-461 | every object of the account leaves the indexes with it |
| `EngineIndex.Engine.FinishLoad` | src/trading/engine.ts:299-345 | the loaded account is tracked; one loaded meanwhile under the same id is replaced |
| `EngineIndex.Engine.TouchedBy` | src/trading/engine.ts:510-517 | the accounts a tick reaches through the index are exactly the holders of the symbol, when nothing is astray or loading |
| `EngineIndex.ExactThroughoutIff` | src/trading/engine.ts:373-461 | over any sequence of operations the index lists exactly what the accounts hold if and only if none adds under a taken id, removes while another object has the id, or lets go of an account that still holds something |
| `EngineIndex.InexactForGood` | src/trading/engine.ts:388-450 | an index that is not exact is never exact again |
| `EngineIndex.OverlappingLoads` | src/trading/engine.ts:299-345 | two overlapping loads of one account leave an entry that no tracked account holds, whatever comes after |
| `ChallengeLifecycle.BuildSnapshot` | src/lib/services/purchases.ts:18-32 | the two loops build the frozen chain |
| `ChallengeLifecycle.FreezeIsWholeIff` | src/lib/services/purchases.ts:18-32 | a frozen chain is whole exactly when the walk ended at a template without a successor, and has at most five phases |
| `ChallengeLifecycle.ProgressionSound` | src/lib/services/challengeEngine.ts:153-195 | over any overlap of evaluations an account with a next account is PASSED and has only one |
| `ChallengeLifecycle.StatusFitsPhase` | src/lib/services/challengeEngine.ts:250-262 | ACTIVE occurs only outside the funded phase and FUNDED only inside it |
| `ChallengeLifecycle.NoDuplicateSuccessor` | src/lib/services/challengeEngine.ts:282-285 | a claim that succeeds never meets the unique index, so the duplicate branch is unreachable |
| `ChallengeLifecycle.FamilyBounded` | src/lib/services/challengeEngine.ts:238-286 | the accounts descended from one purchase number at most the depth of its frozen chain, when that ends |
| `ChallengeLifecycle.FamilyBoundedIff` | src/lib/services/challengeEngine.ts:238-286 | that bound holds in every run if and only if the chain ends at its last template or contains a funded phase |
| `ChallengeLifecycle.CutOffGrows` | src/lib/services/challengeEngine.ts:246-252 | for any chain cut off before a funded phase and any number there is a run in which that account has as many descendants, while the next template is live |
| `ChallengeLifecycle.RunFamily` | src/lib/services/challengeEngine.ts:238-286 | along a family the depth of the remaining chain strictly decreases, and only its last account has no successor |
| `ChallengeLifecycle.RefundStopsFamily` | src/lib/services/purchases.ts:490-512 | after a refund no account of a purchase whose chain ends can trade: four steps reach all frozen phases, in every run |
| `ChallengeLifecycle.RefundStopsFamilyIff` | src/lib/services/purchases.ts:490-512 | in every run a refund leaves no account of the purchase tradable, exactly when the frozen chain ends at a template without a successor or in the funded phase |
| `ChallengeLifecycle.CircleGrows` | src/lib/services/challengeEngine.ts:246-252 | with two active templates in a circle there is, for every number, a run with that many accounts of one purchase |
| `ChallengeOutcomes.ClaimWrites` | src/lib/services/challengeEngine.ts:154-287 | a claim writes its status exactly when the row still has the one that was read, and nothing else but, for a pass, the account of the next phase |
| `ChallengeOutcomes.NextPhaseIs` | src/lib/services/challengeEngine.ts:238-255 | the next phase is the one frozen with the account; without one, the named live template while it is active |
| `ChallengeOutcomes.EvaluationDecides` | src/lib/services/challengeEngine.ts:81-198 | over any run, what the rules decided on the row as read is written by the claim, if the status is then still that one |
| `ChallengeOutcomes.BreachFails` | src/lib/services/challengeEngine.ts:294-334 | over any run, a reported breach of a tradable account ends in FAILED, unless its status changed between the read and the claim |
| `ChallengeOutcomes.AccountsAreMade` | src/lib/services/purchases.ts:268-330 | a purchase opens one account of an active Phase 1 template and of no other, in its phase's status with the frozen chain |
| `ChallengeOutcomes.ManualChangeWrites` | src/lib/services/challengeEngine.ts:342-431 | a manual change or a reset writes one status, or nothing |
| `ChallengeOutcomes.RefundOnlySuspends` | src/lib/services/purchases.ts:490-512 | a refund suspends tradable accounts and touches nothing else |
| `ChallengeOutcomes.FreezeFollows` | src/lib/services/purchases.ts:18-33 | a purchase freezes its template and up to four live successors, each the one its predecessor names, and stops earlier only without a successor, at a missing or at a repeated one |
| `ChallengeLifecycle.ChallengeStore.Read` | src/lib/services/challengeEngine.ts:81-151 | the read of an evaluation or a breach failure decides on the row's own status and phase |
| `ChallengeLifecycle.ChallengeStore.CreateAccount` | src/lib/services/purchases.ts:17-32 | an account starts with the chain frozen from the live templates, in the status of its phase |
| `ChallengeLifecycle.ChallengeStore.ClaimTransition` | src/lib/services/challengeEngine.ts:153-193 | the conditional write, followed by the next phase for a pass |
| `ChallengeLifecycle.ChallengeStore.AdvanceToNextPhase` | src/lib/services/challengeEngine.ts:238-286 | the next account from the frozen chain, or from the live template for a chain that was not frozen |
| `ChallengeLifecycle.ChallengeStore.SetStatusManually` | src/lib/services/challengeEngine.ts:342-360 | the legal manual transitions and no other |
| `ChallengeLifecycle.ChallengeStore.ResetAccount` | src/lib/services/challengeEngine.ts:404-431 | a reset unless the account has progressed |
| `ChallengeLifecycle.ChallengeStore.SuspendPurchaseAccounts` | src/lib/services/purchases.ts:490-512 | the walk along the successors and the suspension of those that trade |
| `Candles.AggregateBars` | src/trading/candles.ts:36-51 | the in-place loop is plain aggregation |
| `Candles.AggregateTwice` | src/trading/candles.ts:15-51 | aggregating to one size and then to a multiple of it is aggregating once, for bars in any order |
| `Candles.CandleBuilder.Restore` | src/trading/candles.ts:68-78 | the current bar of each timeframe is the last of its aggregation of the sorted bars |
| `Candles.CandleBuilder.SetDigits` | src/trading/candles.ts:59-61 | from then on the symbol's mid prices are rounded to those digits, and no other symbol's price changes |
| `CandleShapes.PriceIsMid` | src/trading/candles.ts:20-22 | a bar's prices lie half-way between bid and ask, to half a point of the symbol's digits or of five |
| `Candles.CandleBuilder.OnTick` | src/trading/candles.ts:90-119 | the loop over timeframes, its updates and the minute it closes |
| `Candles.BuilderAgreesIff` | src/trading/candles.ts:90-119 | the incremental bar is the aggregated one after every tick, exactly when no late tick is absorbed |
| `Candles.BuilderRefinesAggregation` | src/trading/candles.ts:90-119 | with minutes that never go back every timeframe shows what aggregation shows |
| `Candles.LateTickBreaksAgreement` | src/trading/candles.ts:107-110 | a minute-old tick inside the same five minutes makes them disagree |
| `CandleShapes.BarShowsItsTicks` | src/trading/candles.ts:90-119 | on every timeframe the current bar is that of the latest bucket and shows first, last, highest and lowest price and the number of the ticks in it, whatever others came |
| `CandleShapes.ClosedBarShows` | src/trading/candles.ts:90-119 | a tick of a later minute closes the minute before it, complete; no other tick closes one |
| `CandleShapes.SortedInOrder` | src/trading/candles.ts:68-78 | restored rows are taken in the order of their times, none lost and none made up |
| `CandleShapes.TimeframesLast` | src/trading/candles.ts:15-18 | the timeframes are a minute, five, fifteen, an hour, four and a day |
| `CandleStore.CandlePersister.Track` | src/trading/candleStore.ts:73-76 | the closed bar is appended and the open one replaces its symbol's |
| `CandleStore.CandlePersister.BeginFlush` | src/trading/candleStore.ts:88-93 | one batch takes everything waiting, unless a flush is in flight |
| `CandleStore.CandlePersister.EndFlush` | src/trading/candleStore.ts:94-100 | a successful upsert writes the batch in order |
| `CandleStore.NothingLostIff` | src/trading/candleStore.ts:59-99 | over any number of restarts the rows overridden by the batch in flight, then by closed, then by dirty bars, are the last tracked values at every moment, exactly when each final flush found none in flight or nothing new |
| `CandleStore.FinalFlushStoresAllIff` | src/trading/candleStore.ts:88-100 | a shutdown leaves every tracked bar in the rows exactly when its flush finds none in flight or nothing new |
| `CandleStore.RunIsSeries` | src/trading/candleStore.ts:59-99 | over all processes the rows and what is on its way are the one-minute series of all ticks |
| `CandleStore.RestoreBuilder` | src/trading/candleStore.ts:46-57 | the loop restores each symbol from today's rows, or from the last one when today has none |
| `CandleStore.RestartsContinue` | src/trading/candleStore.ts:46-57 | after any number of clean restarts every timely tick gives the same bars and closes the same minute as if the process had never stopped |
| `Payouts.PayoutDesk.ComputeAvailability` | src/lib/services/payouts.ts:57-68 | the trader's share less what is committed |
| `Payouts.PayoutDesk.CreatePayout` | src/lib/services/payouts.ts:93-147 | a request within the availability is recorded, any other is not |
| `Payouts.PayoutDesk.ReadPayout` | src/lib/services/payouts.ts:176-203 | a decision goes on only if its maker-checker rule allows the actor |
| `Payouts.PayoutDesk.ClaimDecision` | src/lib/services/payouts.ts:204-239 | the conditional write, and for a payment the balance and both ledger legs |
| `Payouts.ConsumedNear` | src/lib/services/payouts.ts:213-214 | a payment uses up at least its amount, and the share of what it uses up is the amount to half a cent |
| `Payouts.ShareAfterPay` | src/lib/services/payouts.ts:57-68 | paying moves the share by the amount, to the cent, while the profit covers what is consumed |
| `Payouts.NeverOverpaid` | src/lib/services/payouts.ts:125-140 | without trading, paid plus committed never exceeds the initial share by more than a cent per paid payout |
| `Payouts.PaymentKeepsAvailability` | src/lib/services/payouts.ts:207-236 | a payment moves the availability by at most one cent, even when it uses up more than the profit |
| `Payouts.DebitIsConsumed` | src/lib/services/payouts.ts:227-236 | the two ledger legs are the whole of what leaves the balance |
| `Payouts.BalanceMatchesLedger` | src/lib/services/payouts.ts:207-236 | over any run the balance is what trading brought less exactly the ledger's debits |
| `Payouts.PaidByThreeAndOnce` | src/lib/services/payouts.ts:174-205 | a paid payout has three different people behind it and exactly one debit, however reads and claims interleave |
| `Payouts.TerminalStays` | src/lib/services/payouts.ts:174-205 | PAID and REJECTED are never left |
| `PayoutTrail.PaidByThreeSteps` | src/lib/services/payouts.ts:93-271 | behind every paid payout of a run are three steps of three people: who asked for it in its own name, who read it to approve it and who read it to pay it |
| `PayoutTrail.ShareIsPercent` | src/lib/services/payouts.ts:57-85 | the share is the split per cent of the profit, to half a cent, and nothing of a loss |
| `PayoutTrail.RequestRecordedIff` | src/lib/services/payouts.ts:93-158 | a request is recorded in its author's name exactly when it is eligible, large enough and within what is uncommitted |
| `PayoutTrail.DecisionReadIff` | src/lib/services/payouts.ts:168-195 | who may decide what: one stage at a time and nobody twice; a rejection until it is paid |
| `PayoutTrail.DecisionsMoveUncommitted` | src/lib/services/payouts.ts:196-206 | a rejection gives its amount back, an approval moves nothing, neither moves the balance |
| `PayoutTrail.PaymentWritten` | src/lib/services/payouts.ts:196-245 | a payment is written exactly when the row is still approved, with both ledger legs |
| `PhoneOtp.OtpDesk.RequestCode` | src/lib/services/phoneOtp.ts:76-100 | cooldown, hourly cap, then the new code in place of the unused ones |
| `PhoneOtp.OtpDesk.FindCode` | src/lib/services/phoneOtp.ts:125-130 | the newest live code |
| `PhoneOtp.OtpDesk.SpendAttempt` | src/lib/services/phoneOtp.ts:132-136 | one attempt is spent before the comparison, or the check ends |
| `PhoneOtp.OtpDesk.ClaimCode` | src/lib/services/phoneOtp.ts:138-140 | the row is consumed once |
| `PhoneOtp.OtpDesk.DropUnsent` | src/lib/services/phoneOtp.ts:107-110 | the row of a code that could not be sent goes, as the step of a run |
| `PhoneOtp.OtpDesk.CleanUp` | src/worker/jobs.ts:58-59 | rows that expired more than a day ago go, as the step of a run |
| `PhoneOtp.CodesAreSafe` | src/lib/services/phoneOtp.ts:120-141 | at most one unconsumed code per purpose, at most five comparisons and one acceptance per code |
| `PhoneOtp.CodesAreSpread` | src/lib/services/phoneOtp.ts:76-100 | surviving codes are sixty seconds apart with at most five in any sliding hour |
| `PhoneCodes.AcceptedCodesAreRight` | src/lib/services/phoneOtp.ts:120-141 | over every run whatever is accepted carries the very code that was issued, for its purpose, looked up within its time |
| `PhoneCodes.MatchedCodesAreRight` | src/lib/services/phoneOtp.ts:132-136 | a check that matched carries the code and the purpose of the surviving row it found |
| `PhoneCodes.IssuedIsRequested` | src/lib/services/phoneOtp.ts:76-100 | every code was issued to a request of the run, for five minutes |
| `PhoneCodes.VerifiedIff` | src/lib/services/phoneOtp.ts:120-141 | with a usable code the right one is accepted and used up, and any other spends an attempt and is refused |
| `PhoneCodes.SpentIs` | src/lib/services/phoneOtp.ts:132-136 | a check compares its code only with a row that is still there, unconsumed and with attempts left, which loses one; otherwise, or with the wrong code, it is over |
| `PhoneCodes.ClaimedIs` | src/lib/services/phoneOtp.ts:138-140 | a matched check is accepted exactly when its row is still unconsumed, and consumes it |
| `PhoneCodes.GoneIs` | src/lib/services/phoneOtp.ts:132-140 | a check whose row is gone is over |
| `PhoneCodes.NothingUsable` | src/lib/services/phoneOtp.ts:125-131 | without one every code is refused and nothing changes |
| `PhoneCodes.GrantedIff` | src/lib/services/phoneOtp.ts:76-92 | a request is granted exactly when no code is less than a minute old and fewer than five are less than an hour old |
| `PhoneCodes.GrantReplaces` | src/lib/services/phoneOtp.ts:94-98 | a granted request uses up the purpose's earlier codes, leaves the others alone and adds one good for five minutes |
| `PhoneCodes.DeletedIs` | src/worker/jobs.ts:58-59 | a code that could not be sent goes alone, and a clean-up takes exactly the codes that expired more than a day ago |
| `CsvLine.SplitCsvLine` | src/lib/services/newsCalendar.ts:69-91 | the character loop is the recursive splitter |
| `CsvLine.SplitUndoesPrint` | src/lib/services/newsCalendar.ts:69-91 | quoting all fields, or only those that need it, and splitting gives any non-empty list back, trimmed |
| `CsvLine.RoundTripIff` | src/lib/services/newsCalendar.ts:69-91 | the list is unchanged exactly when it is not empty and its fields are trimmed |
| `CsvLine.BlankBeforeQuote` | src/lib/services/newsCalendar.ts:69-91 | a quote opens a quoted field after white space too, which is dropped |
| `CsvLine.TrimIs` | src/lib/services/newsCalendar.ts:69-91 | fields lose the white space at both ends and nothing else |
| `Coalescer.Coalescer.Offer` | src/trading/coalesce.ts:12-23 | sent at once when due and nothing waits, else it replaces what waits |
| `Coalescer.Coalescer.Drain` | src/trading/coalesce.ts:26-38 | what is due goes out in insertion order |
| `Coalescer.Coalescer.Forget` | src/trading/coalesce.ts:44-47 | the key starts afresh |
| `Coalescer.DrainNextIsDrained` | src/trading/coalesce.ts:26-38 | the deliveries a run records are the ones a drain returns, in order |
| `Coalescer.DeliveriesSpaced` | src/trading/coalesce.ts:5-48 | deliveries of a key are in strictly increasing offer order and at least an interval apart |
| `Coalescer.NewestNeverLost` | src/trading/coalesce.ts:5-48 | until forgotten a key's newest offer is the last delivered or the waiting one |
| `Coalescer.WaitingWasSent` | src/trading/coalesce.ts:30 | every waiting key has a last-sent time, so the fallback to zero is never used |
| `Coalescer.OfferSendsIff` | src/trading/coalesce.ts:12-23 | an offer goes out exactly when its key was never sent or an interval ago and nothing waits; else it is what waits |
| `Coalescer.DrainSendsReady` | src/trading/coalesce.ts:26-38 | a drain delivers every waiting frame whose interval has gone by and leaves every other one waiting |
| `Coalescer.ForgottenStartsAfresh` | src/trading/coalesce.ts:44-47 | after a forgetting nothing of the key waits and its next offer goes out at once |

## Left out

- LiveSafety.HoldingRuleBinds: an account that is being emptied for a breach or by an admin is excepted, because that loop clears and sets the flags as it goes; a position whose instrument is not loaded is not a session position.
- LiveSafety.HoldingRuleAdmitsNothing: covers loaded instruments, under the same condition on the catalogue.
- LiveBreach.BreachLeavesOpen: an account that was taken off before its breach handling began has nothing in memory to close; its OPEN rows stay (`LiveBreach.LeftStaysOpen`).
- LiveEngine.LiveAccount.Take: one account object from its load to the end of its tracking; loading it again starts a new one, and the "deleted" path that untracks outside the queue is not modelled. Pieces without a loop are modelled on values and assigned, so updates inside them are not separate steps, which nothing could see.
- LiveEngine.LiveAccount.MergeRow: nothing opens rows behind the engine, so its additions happen at a load only.
- LiveBooks.ResumeKeepsBooks: the ledger's commit and the memory update after it are one step, so a reload that falls between them is not modelled; `EngineIndex.Engine.AddPosition` says what that reload would leave in the index.
- LiveSafety.TrackedIsFresh: the reads of a load and its re-anchoring are one step, so no tick falls between them.
- EngineIndex.ExactThroughoutIff: a removal and the look-up of its id are one step, and operations that were queued on an account object before another load replaced it are not modelled.
- AccountQueue.NeverStuck: says an operation can move, not that it ends; an operation that waits on its own account's queue (src/trading/engine.ts:1302) never does.
- CandleStore.NothingLostIff: upserts succeed and a flush in flight at shutdown still ends; a failed flush drops its batch (src/trading/candleStore.ts:94-97), and a crash loses what waits.
- CandleStore.RestartsContinue: a restart restores every symbol that has rows; one whose instrument is enabled only later starts from an empty builder (src/worker/main.ts:75-77).
- ChallengeLifecycle.ChallengeStore.Read: status, phase and chain only; balances and peaks that an evaluation writes from an earlier read are not modelled at this granularity.
- ChallengeLifecycle.ChallengeStore.SetStatusManually: one step, as is a reset, because the source writes them without a status guard.
- PhoneOtp.OtpDesk.RequestCode: one phone number; its row is created no earlier than the instant read before the lock, and a stored hash is the code itself.
- Payouts.PayoutDesk.CreatePayout: KYC, funded days, consistency and account status are one flag of the request.
- FX conversion paths, the markup and the instrument catalogue's other columns: the market around an account is an input of each step.
- News windows: the symbols inside one are an input.
- Market state, staleness and the manual halt: inputs, with the effect they have on orders and checks.
- Notifications, certificates, audit entries, snapshots, metrics and everything emitted on the bus.
- Recording a rejected order is part of the refusal, not a separate await.
- Floating-point noise and the 1e-9 and 1e-6 tolerances: arithmetic is exact.
- `parseResetTime` and day keys outside four-digit years; the hour and minute it clamps are taken as clamped.
- `consistencyCheck`: an input of the pass decision.
- The gateway's use of the coalescer: it forgets by channel name while some frames use other keys.
- JWT, TOTP, passwords, payments, referrals, coupons, KYC, the feed router, pages, seeds and scripts.
