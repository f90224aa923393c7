# Verified model of the alert-to-order path

The service receives trading alerts, decides whether to trade on them, sends orders to
brokers or to a user's own NinjaTrader device, and keeps the books. This project models the
parts of it in which many things happen at once or over time, and proves what they keep:

- **The device bridge** (`DeviceTable`, `BridgeProtocol`, `BridgeInvariants`, `BridgeHistory`,
  `BridgeSweep`, `BridgeTheorems`, `BridgeEffects`, `BridgeRegistry`). Pushes, acks, timeouts, registrations
  and the stale sweep interleave at every `await`. `BridgeProtocol` is a step machine whose
  steps are the stretches of code between awaits; the theorems hold in every reachable state,
  and `BridgeEffects` says in plain fields what each step does and that nothing gets stuck.
  `BridgeRegistry` has the same operations as methods of a class on heap objects, with the
  loops of the source, each proved to do to the dictionaries what the machine's step does.
- **Order delivery** (`NinjaTrader`): push to a device, or fall back to a forward URL.
- **Ingest** (`IdempotencyKey`, `Gates`, `IngestPipeline`, `IngestProtocol`, `IngestTheorems`, `IngestEffects`).
  `IngestPipeline` is the chain of gates that one alert passes through, as a method and as a
  verdict. `IngestProtocol` is a step machine in which handlers of several workers race on a
  key, hold the per-user slot, run into constraint violations and die anywhere; `IngestTheorems`
  says what never happens, `IngestEffects` what does.
- **The ledger** (`Money`, `Trade`, `TradeLedger`, `ProfitConservation`, `OrderLifecycle`,
  `ExecuteTrade`, `LedgerRuns`, `RealisedCash`): fills, average-cost profit, take-profit legs,
  the reconciling pass, and whole runs of trades and reconciling over one table, up to the
  realised total of the reports.
- **Fast forms and their simple counterparts**: the sliding-window limiter and the full log
  (`RateLimit`), the settings cache and the table (`AgentConfig`), the audit list and sorting
  everything (`Pages`, `AlertAudit`), sizing and the best affordable count (`Sizing`), the
  contract choice (`ContractChoice`), the reports and the realised total (`Performance`).

Prices and costs are exact rationals and realised amounts whole cents; the clock never runs
backwards. Brokers, the network, the language model and the database's row order are inputs
of which nothing is assumed; a call into a broker's adapter may also raise.

## What the model found

Where a promise does not hold as it is usually put, the model keeps the code as it is, shows
a run or an input that breaks the promise, and proves exactly when it holds.

- Delivered order ids are kept for all users together. A push can report success although
  nothing was sent for its user, because another user's device confirmed the same id within
  the hour: a run in `AnotherUsersOrderIsSkipped`, exactly when in `PushStartsRight`.
- An order that the device did acknowledge can be posted to the forward URL as well: runs in
  `LateAckIsPostedToo` and `AckBeforeFailureIsPostedToo`, exactly when in `AckedIsPostedIff`.
- Delivering an order raises, and leaves no row, when the HTTP client refuses a forward URL or a
  secret that was accepted when it was stored, and when a dry run is answered with JSON that is
  not an object: inputs in `LetterPortRaises`, `AccentedSecretRaises` and `ListReplyRaises`, exactly
  when in `RaisesIff`.
- An option order can be out without a row: `StatusErrorLosesTheRow`, exactly when in
  `PlacedWithoutRowIff`.
- The average cost of a contract never forgets lots that were closed, so a contract that is
  traded again books profits that were not made: `ReopeningBooksAProfitFromNothing`, exactly when
  in `ReopeningConservesIff`.
- A buy that rests when placed never enters the open cost, as only closes are reconciled:
  `RestingBuyStaysOut`; what does enter in `OpenCostIsBuysFilledAtOnce`.
- Whether a row is a close is a substring test on the whole stored intent:
  `BuyThatMentionsACloseIsNotCounted`, exactly when in `BuyCountsIff`.
- The "integrity error without matching alert row" can be reached, through the foreign key to a
  webhook deleted meanwhile and never through the unique index: `RuntimeErrorIsReachable`,
  exactly when in `RuntimeErrorIff`.
- Discord messages that differ in anything but the title and description of their first embed
  are duplicates of each other: `TwoMessagesOneKey`, exactly when in `OnlyTheFirstEmbedCounts`.
- After an update the settings cache can still be filled with the old settings, by a reader that
  had fetched them before or by a read without a session (which none of the service's own callers
  makes): `RacingReadUndoesInvalidation`, `ReadWithoutSessionPollutes`, exactly when in
  `AgreesIffNoneInFlight`. Either way it lasts less than 30 s (`ReadsAreRecent`).
- Month-to-date has no upper end: `LaterProfitIsMonthToDate`, exactly when it matters in
  `MonthToDateIff`. Rows are dated by the database, so this takes a database clock that runs
  ahead of the service's. December 9999 is the one month without bounds (`BoundsAbut`).
- The audit list shows failed and invalid trades as executed: `FailedOrderIsListedAsExecuted`,
  exactly what it shows in `OutcomeTellsResponse`.

## Model

| member | source | states |
|---|---|---|
| `BridgeTheorems.RunKeepsInvariant` | app/services/device_bridge.py:69-280 | every run of the bridge, whatever pushes, acks, timeouts, registrations and sweeps interleave at its awaits, keeps the registry shape, the ownership of pending entries, the delivered map, attribution and the sweep invariant |
| `BridgeTheorems.FuturesCompleteOnce` | app/services/device_bridge.py:80-83 | in every reachable state no ack future has been completed twice, and it has been completed once exactly when it is no longer pending |
| `BridgeTheorems.PendingEntriesAreInFlight` | app/services/device_bridge.py:164-168 | every entry left in any pending map belongs to a push still being sent or awaited, with that order id, that connection and that user, even when two pushes share an order id |
| `BridgeTheorems.SuccessIsAttributed` | app/services/device_bridge.py:216-242 | a push that sent its order reports success only if an ack for exactly its user and device carried its own order id with a positive ok; it reports the id it was given |
| `BridgeTheorems.MarksAreConfirmed` | app/services/device_bridge.py:230-234 | an id is marked delivered only by a push of that very id that its own device confirmed |
| `BridgeTheorems.SkippedRepeatsConfirmed` | app/services/device_bridge.py:175-182 | a push that succeeds without sending repeats an id that some device did confirm |
| `BridgeTheorems.AnotherUsersOrderIsSkipped` | app/services/device_bridge.py:120-123 | a reachable run in which that device is another user's: the delivered map is not kept per user |
| `BridgeTheorems.PrunedMapIsHistory` | app/services/device_bridge.py:109-123 | the pruned map answers as an unpruned history of marks: an id counts as delivered exactly when some mark of it is at most 3600 s old |
| `BridgeTheorems.PushStartsRight` | app/services/device_bridge.py:172-192 | a starting push is skipped exactly when its id was marked within the hour; otherwise it goes to the user's primary connection, or nowhere without one; only then is a pending entry stored |
| `BridgeTheorems.RegistryShape` | app/services/device_bridge.py:69-85 | stored connections carry their own user and device keys, and with the lock free no user maps to an empty dict |
| `BridgeTheorems.RoutingCoincides` | app/services/device_bridge.py:96-107 | at every await, mid-sweep too, has-online, a non-empty online list and a non-null primary coincide, and the primary is the head of the online list |
| `BridgeTheorems.SweepLookupsSucceed` | app/services/device_bridge.py:265-278 | the sweep's dictionary lookups never fail although it awaits socket closes while iterating |
| `BridgeTheorems.FinishedSweepIsExact` | app/services/device_bridge.py:261-280 | for every interleaving the sweep removes precisely the connections older than 90 s at its captured time, leaves the others with their last-seen times, completes every pending future of the removed ones and returns their number |
| `DeviceTable.RoutingAgrees` | app/services/device_bridge.py:96-107 | sorting by last-seen in reverse and taking the first maximum pick the same device, ties included |
| `DeviceTable.RegisteringAddsOne` | app/services/device_bridge.py:69-75 | registering changes one pair of user and device, and puts a new device last |
| `DeviceTable.UnregisteringDropsOne` | app/services/device_bridge.py:77-85 | unregistering takes out that device and no other: every other pair keeps its connection and the order of what remains, and the user goes exactly with the last device |
| `DeviceTable.SweepingDropsTheStale` | app/services/device_bridge.py:265-279 | a sweep takes out the stale connections and no other, in the same sense |
| `BridgeEffects.RegisterEffect` | app/services/device_bridge.py:69-75 | the step: one pair gets a fresh connection seen now, nothing else moves |
| `BridgeEffects.UnregisterEffect` | app/services/device_bridge.py:77-85 | the step: that pair goes, every other stays, and exactly the futures pending on it that were not done fail as disconnected |
| `BridgeEffects.SendFailureEffect` | app/services/device_bridge.py:192-207 | a failed send unregisters the device it was sent to and no other, and the push is over without success |
| `BridgeEffects.TouchEffect` | app/services/device_bridge.py:87-91 | touching a registered device moves its last-seen time to now, and nothing else |
| `BridgeEffects.AckArrivesEffect` | app/services/device_bridge.py:159-162 | a message is handled for the connection registered under its sender, and not at all without one |
| `BridgeEffects.AckPopsItsEntry` | app/services/device_bridge.py:164-165 | of an awaited ack: its id is popped from that connection, and no other entry |
| `BridgeEffects.AckCompletesItsPush` | app/services/device_bridge.py:165-167 | the push that waits under that id gets this ack unless its future was done, and no other future is touched |
| `BridgeEffects.UnawaitedAckEffect` | app/services/device_bridge.py:164-168 | an ack nobody waits for changes nothing but a last-seen time |
| `BridgeEffects.AckIsSeen` | app/services/device_bridge.py:164 | handling an ack counts as seeing its sender |
| `BridgeEffects.PushGoesToTheLastSeen` | app/services/device_bridge.py:103-107 | a push is sent to the user's own device that was seen last, the first registered of equals |
| `BridgeEffects.SendEffects` | app/services/device_bridge.py:190-193 | a send that returns starts the wait now; one that raises leaves no entry |
| `BridgeEffects.DeadlineEffect` | app/services/device_bridge.py:209-213 | no future is cancelled before 25 s have passed, and then only its own |
| `BridgeEffects.ResumedOnAck` | app/services/device_bridge.py:55-58 | in the ack's two flags: ok decides if it is there, else success, and neither means yes; a yes is a success and marks the id now, a refusal is a failure and marks nothing |
| `BridgeEffects.ResumedInVain` | app/services/device_bridge.py:211-228 | without an ack, or too late for it, a push fails, leaves no entry and marks nothing |
| `BridgeEffects.AckReachesItsPush` | app/services/device_bridge.py:159-246 | three steps end to end: an answer of the device a push waits for ends that push with the device's verdict, marks the id exactly on a yes, and leaves no entry |
| `BridgeEffects.NoPushIsStuck` | app/services/device_bridge.py:190-246 | in every reachable state each unfinished push has its next step: a send comes back, a completed future is taken up, a wait ends at 25 s and not before |
| `BridgeEffects.EverySweepEnds` | app/services/device_bridge.py:264-280 | every sweep ends after finitely many turns and lets go of the lock |
| `BridgeEffects.LockIsTheSweep` | app/services/device_bridge.py:66-91 | what takes the lock waits exactly while a sweep runs; arriving messages, new pushes and the clock do not |
| `BridgeRegistry.DeviceBridgeRegistry.Register` | app/services/device_bridge.py:69-75 | the new connection replaces or joins under its keys; every other pair of user and device stays |
| `BridgeRegistry.DeviceBridgeRegistry.Unregister` | app/services/device_bridge.py:77-85 | that device goes and every other stays, and the user goes with the last one; each future pending on it that was not done fails as disconnected |
| `BridgeRegistry.DeviceBridgeRegistry.Touch` | app/services/device_bridge.py:87-91 | only the registered connection's last-seen time moves |
| `BridgeRegistry.DeviceBridgeRegistry.PruneDelivered` | app/services/device_bridge.py:109-116 | popping expired ids one by one leaves exactly those at most an hour old |
| `BridgeRegistry.DeviceBridgeRegistry.WasOrderDelivered` | app/services/device_bridge.py:118-120 | membership after pruning |
| `BridgeRegistry.DeviceBridgeRegistry.PrimaryConnection` | app/services/device_bridge.py:103-107 | the loop finds the connection of the last-seen device, first of equals, and null exactly without devices |
| `BridgeRegistry.DeviceBridgeRegistry.PushBegin` | app/services/device_bridge.py:170-194 | up to the first await: skipped, no device, or a fresh pending future under the order id at the primary and nowhere else |
| `BridgeRegistry.DeviceBridgeRegistry.AckResumes` | app/services/device_bridge.py:159-168 | the entry with the ack's id is popped from the connection looked up before, and its future completed unless done |
| `BridgeRegistry.DeviceBridgeRegistry.PushResumes` | app/services/device_bridge.py:215-246 | the acknowledged id, its success and the mark; or a failed push that leaves no entry |
| `BridgeRegistry.DeviceBridgeRegistry.SweepDevices` | app/services/device_bridge.py:266-273 | the inner loop drops exactly a user's stale devices, counts them, and completes what waited on them and nothing else |
| `BridgeRegistry.DeviceBridgeRegistry.CleanupStale` | app/services/device_bridge.py:261-280 | undisturbed, the loop nest on heap objects is the sweep of the table in one step; the futures no stale connection waits on keep their outcome |
| `NinjaTrader.ExecuteFuturesOrder` | app/brokers/ninjatrader.py:144-181 | which transports are used and which result counts: a confirmed push, else one POST if there is a URL, else a failure |
| `NinjaTrader.SuccessIsDelivered` | app/brokers/ninjatrader.py:155-181 | together with the bridge: success means an accepted POST, or a device's confirmation of this very id; without a POST the order keeps its id |
| `NinjaTrader.AckedIsPostedIff` | app/brokers/ninjatrader.py:155-181 | an order its own device positively acknowledged is posted as well if and only if there is a usable URL and the push all the same timed out, failed to send, or was refused |
| `NinjaTrader.LateAckIsPostedToo` | app/services/device_bridge.py:205-213 | a run that ends so: the ack completes the future as its 25 s run out, and the order goes out twice |
| `NinjaTrader.AckBeforeFailureIsPostedToo` | app/services/device_bridge.py:198-214 | another: the ack is handled while the send is awaited, and the send then raises |
| `NinjaTrader.RaisesIff` | app/brokers/ninjatrader.py:215-255 | the adapter raises exactly when it has to post and the HTTP client refuses the URL, the secret or the rest of the request before sending, or a dry run is answered with JSON that is not an object; it has posted exactly in the second case |
| `NinjaTrader.BadPortRaises` | app/api/brokers.py:325-327 | every https URL whose port is no number is stored, and raises at every order that has to be posted |
| `NinjaTrader.AccentedSecretRaises` | app/brokers/ninjatrader.py:215-217 | so does a secret with a letter outside ASCII |
| `NinjaTrader.FuturesSymbolTwice` | app/brokers/ninjatrader.py:12-16 | mapping a symbol twice, as parsing and validating do, is mapping it once |
| `NinjaTrader.FuturesSymbolIs` | app/brokers/ninjatrader.py:9-16 | the four index roots, in any case, become the continuous contract; every other symbol is only upper-cased |
| `NinjaTrader.ReportIs` | app/brokers/ninjatrader.py:144-261 | by cases: a confirmed push is the success with its id and no POST; a POST succeeds exactly on a 2xx status, under the id in the reply or else the order's; with neither the order fails, under the id that is known |
| `NinjaTrader.DecimalPortIsNumber` | app/brokers/ninjatrader.py:215-217 | every decimal port passes, with or without a sign or a blank before it |
| `NinjaTrader.UnderscoresJoinDigits` | app/brokers/ninjatrader.py:215-217 | in a port that passes, underscores stand between digits, one at a time |
| `NinjaTrader.LeftToTheClient` | app/brokers/ninjatrader.py:215-217 | bracketed hosts, user names and ports outside ASCII are left to the client |
| `NinjaTrader.RefusedUrls` | app/brokers/ninjatrader.py:210-217 | a URL over 65536 characters or with a control character, or a secret outside ASCII, is never sent to |
| `NinjaTrader.LetterPortRaises` | app/api/brokers.py:325-327 | a stored URL of that kind |
| `NinjaTrader.ListReplyRaises` | app/brokers/ninjatrader.py:230-236 | a dry run that was sent and is answered with a list raises |
| `IngestInvariants.RunKeepsInvariant` | app/services/ingest_pipeline.py:72-97 | every run of handlers on any number of workers, dying anywhere, keeps keys unique, rows owned, slots held and placements tied to the owner of their row |
| `IngestTheorems.PlacedAtMostOnce` | app/services/ingest_pipeline.py:80-97 | over every interleaving a broker placement method is called at most once per user and idempotency key |
| `IngestTheorems.LosersNameTheWinner` | app/api/ingest.py:33-38 | a handler that finishes without having inserted the row answers duplicate with the id of the one row of its key, under which any order for the key was placed; the only exception is a foreign-key violation |
| `IngestTheorems.RecoveryFindsRow` | app/api/webhooks.py:139-141 | after a unique-index violation recovery finds the row, inserted on another worker, so the RuntimeError cannot happen; after a later violation it finds the handler's own row |
| `IngestTheorems.RuntimeErrorIff` | app/services/ingest_pipeline.py:49-54 | the RuntimeError is raised exactly on a foreign-key violation that leaves the key without a row, which for all bodies but eterminal ones is every foreign-key violation |
| `IngestTheorems.RuntimeErrorIsReachable` | app/api/webhooks.py:98-110 | a run that raises it: the webhook is deleted between a handler's arrival and its insert |
| `IngestTheorems.OneWorkerNeverViolates` | app/services/ingest_gate.py:6-25 | with a single worker no insert ever violates the unique index |
| `IngestTheorems.DecidedKeysStayQuiet` | app/services/ingest_pipeline.py:82-97 | once the owner of a row has placed, answered or died, no continuation of the run places an order for its key |
| `IngestTheorems.GatesHeldAtPlacement` | app/services/ingest_pipeline.py:86-189 | every order placed in any run passed every gate on an active subscription and fits its user and request |
| `IdempotencyKey.OnlyTheFirstEmbedCounts` | app/services/webhook_normalize.py:26-43 | two Discord messages have one key exactly when their first embeds agree in title and description |
| `IdempotencyKey.TwoMessagesOneKey` | app/services/webhook_normalize.py:50-63 | two messages, the later with another order in its second embed, and one key |
| `IdempotencyKey.KeysAgreeIff` | app/services/ingest_pipeline.py:27-46 | two requests have one key if and only if they are one user's, arrived the same way (which envelopes leave open), and their hashed contents agree: the JSON of orders; title, subtitle, body and date of messages; kind, signal and time of envelopes |
| `IdempotencyKey.NoKeyIff` | app/services/webhook_normalize.py:26-43 | only a Discord message whose first embed lacks title or description has no key |
| `IngestEffects.FreshRequestIsServed` | app/services/ingest_pipeline.py:72-194 | undisturbed, a request with a fresh key that every gate lets through runs to its end: one row, one order, the answer, and the slot free again |
| `IngestEffects.RepeatIsDuplicate` | app/services/ingest_pipeline.py:80-84 | the same request once more, on any worker, is answered with the first one's row and stores and places nothing |
| `IngestEffects.SlotIsExclusive` | app/services/ingest_gate.py:20-25 | two handlers of one user on one worker are never both inside |
| `IngestEffects.LostRaceEffect` | app/api/webhooks.py:139-141 | a handler that loses the insert to another worker is answered with the winner's row |
| `IngestEffects.LateFailureEffect` | app/api/webhooks.py:139-141 | a violation after the insert is answered with the handler's own row, and what was placed stays placed |
| `IngestEffects.DeathEffect` | app/services/ingest_gate.py:20-25 | dying anywhere frees the slot if it was held, and undoes nothing |
| `IngestEffects.NobodyIsStuck` | app/services/ingest_gate.py:20-25 | in every reachable state each unfinished handler has its next step, unless it waits for a slot whose holder is another handler on its way: no slot is ever leaked |
| `IngestEffects.PlacingIsPossibleIff` | app/services/ingest_pipeline.py:86-189 | between insert and answer an order can be placed exactly if the verdict of that moment has one |
| `IngestEffects.WebhookEffect` | app/api/webhooks.py:98-110 | a webhook goes exactly while no alert refers to it, takes no other with it, and never returns |
| `IngestPipeline.ProcessInboundAlert` | app/services/ingest_pipeline.py:72-194 | a known key is a duplicate that changes nothing; an unknown one gets its row first, and then the verdict is carried out: flags, rows, response and at most one order, whichever calls to the outside raise |
| `IngestPipeline.TradeAlert` | app/services/ingest_pipeline.py:136-194 | from the connection on: the order and everything stored are those of the verdict, also when a call raises midway |
| `IngestPipeline.OrderIffAllGates` | app/services/ingest_pipeline.py:86-189 | an order goes out if and only if every gate, stated on the raw request, is open and every call before the placement returns |
| `IngestPipeline.OrdersFit` | app/services/ingest_pipeline.py:143-189 | any order has 1 to max(1, max_contracts) contracts, as many as sizing says on the equity that is reported, is live exactly for a live user with the live flag, keeps the intent's side, trades a listed liquid contract of the intent's option type and underlying (or SPXW for SPX), closes no more than is held, carries the exit the trade asks for, and uses the user's own connected connection, NinjaTrader exactly for futures |
| `IngestPipeline.SourceIsRaw` | app/services/ingest_pipeline.py:106-128 | what is traded is the raw intent, unchanged by the gates |
| `IngestPipeline.ConnectionIsOwn` | app/services/ingest_pipeline.py:57-64 | the user's own connected connection, of the default broker when there is one, and none only without any |
| `IngestPipeline.ExecuteFuturesTrade` | app/services/execute_futures_trade.py:10-67 | one row, sent exactly without validation errors, dry exactly in paper mode, submitted or failed as the delivery says |
| `IngestPipeline.SkipReasons` | app/services/ingest_pipeline.py:99-176 | an envelope that is no signal, a skip and a closed market are each stored with their reason, in this order; without a subscription nothing is judged |
| `IngestPipeline.FuturesErrorsIff` | app/services/futures_trade.py:95-104 | a futures trade is clean exactly with a symbol, a quantity of at least one and a side |
| `IngestPipeline.FuturesRowIs` | app/services/execute_futures_trade.py:10-67 | the row names the user, the alert, the symbol and the quantity, and is submitted exactly on a delivered order, under the id that was reported |
| `Gates.GatesPassOrSkip` | app/agents/decide_action.py:6-15 | the gates pass an intent untouched exactly when confidence, ticker and filter allow it, and otherwise only make it a skip with a reason: the filter fails closed |
| `Gates.FilterReasonIsMarked` | app/agents/filter_trade.py:46-72 | a skip by the filter has as its reason the first 255 characters of what the model said, marked "user prompt: " unless it is already |
| `Gates.ListedTickersPass` | app/agents/decide_action.py:11-14 | a comma-separated list admits exactly the entries it names, up to case and blanks |
| `Gates.PromptIsConsultedIff` | app/agents/filter_trade.py:21-26 | the filter is asked exactly about a prompt that is not blank; then it fails closed |
| `Gates.FilterTakesIff` | app/agents/filter_trade.py:58-72 | with such a prompt the trade goes on only if the model is configured, answers, and takes it |
| `Gates.EarlierReasons` | app/agents/decide_action.py:6-15 | an earlier gate's reason is kept, and the confidence is judged before the ticker |
| `OrderLifecycle.LegPriceIsReported` | app/services/order_lifecycle.py:13-18 | the leg price is the first reported one in reading order, and none only if no leg has one |
| `OrderLifecycle.FillPriceIsTold` | app/services/order_lifecycle.py:10-28 | the fill price is the leg price, else the reported price, else the first average that is not zero, and the fallback only when none of these is reported |
| `OrderLifecycle.UnaskedPriceIsFallback` | app/services/order_lifecycle.py:34-40 | an order that cannot be asked about, or is asked about in vain, has the fallback as its price, unless that is zero |
| `OrderLifecycle.SettledAtTheToldPrice` | app/services/order_lifecycle.py:108-128 | a close settled as filled on a reply that reports a price has that price in its row, and its profit is taken at it |
| `OrderLifecycle.SettledWithoutFill` | app/services/order_lifecycle.py:108-128 | a failed one keeps its profit, and one the reply says nothing about stays as it is |
| `TradeLedger.ComputeClosePnl` | app/services/order_lifecycle.py:54-85 | the loop computes the average-cost profit in rounded cents, or none without price, contract or open quantity |
| `TradeLedger.AverageWithinFills` | app/services/order_lifecycle.py:74-84 | the average open price lies between the smallest and the largest opening fill |
| `ProfitConservation.ClosesConserve` | app/services/order_lifecycle.py:74-85 | before rounding, the closes of a contract add up to proceeds minus cost if and only if they close what was opened (or the opens were free) |
| `ProfitConservation.BookedNearExact` | app/services/order_lifecycle.py:85 | n rounded closes are within n half-cents of their exact sum |
| `ProfitConservation.BooksBalance` | app/services/order_lifecycle.py:54-85 | opened and then closed completely, the booked profit is proceeds minus cost within half a cent per close |
| `ProfitConservation.ReopeningConservesIff` | app/services/order_lifecycle.py:62-84 | closed lots stay in the average, so a contract opened again conserves if and only if old and new lots cost the same on average |
| `ProfitConservation.ReopeningBooksAProfitFromNothing` | app/services/order_lifecycle.py:62-85 | two break-even round trips booked as a profit of $100 |
| `ProfitConservation.BuyCountsIff` | app/services/order_lifecycle.py:76-81 | the close test is a substring test, so a filled buy enters the open cost if and only if its free text does not contain the mark |
| `ProfitConservation.BuyThatMentionsACloseIsNotCounted` | app/services/order_lifecycle.py:76-81 | a filled buy that does contain it, and counts as not held |
| `OrderLifecycle.Ledger.ReconcileRow` | app/services/order_lifecycle.py:108-128 | one turn: a resting close with an order id is settled by the broker's answer, anything else stays |
| `OrderLifecycle.Ledger.Reconcile` | app/services/order_lifecycle.py:88-131 | the pass, updating row by row, has the order-free outcome, and its count is the drop in submitted closes |
| `OrderLifecycle.ReconcileMovesOnly` | app/services/order_lifecycle.py:108-128 | only submitted closes with an order id move, only to filled or failed, and only on a status that says so; they keep their identity, and a new price is one the broker reported |
| `OrderLifecycle.PnlIgnoresUpdates` | app/services/order_lifecycle.py:117-127 | profits do not depend on whether earlier updates of the pass are visible |
| `OrderLifecycle.PnlIgnoresRowOrder` | app/services/order_lifecycle.py:62-85 | nor on the order of the rows |
| `OrderLifecycle.PassesCompose` | app/services/order_lifecycle.py:96-131 | confluence: settling A and then B is settling both at once |
| `OrderLifecycle.SmallBacklogIsCovered` | app/services/order_lifecycle.py:96-106 | with at most limit submitted rows the pass sees every one of them |
| `PositionCheck.ValidateClosePosition` | app/services/position_check.py:4-15 | no error exactly when that many whole contracts are held in the first matching position |
| `ExecuteTrade.TakeProfitIsNearTarget` | app/services/execute_trade.py:13-20 | the exit price is within half a cent of entry times one plus the percentage, ties up, and not under the entry in whole cents; there is one exactly with a positive percentage and entry price |
| `ExecuteTrade.PersistTakeProfitLeg` | app/services/execute_trade.py:36-92 | a new leg, or the row that already has its order id untouched, or nothing without an id |
| `ExecuteTrade.EntryPriceIs` | app/services/execute_trade.py:16 | the entry price is the ask, else the limit, else the bid; zero counts as missing |
| `ExecuteTrade.LegIsAddedIff` | app/services/execute_trade.py:47-92 | a leg is added exactly when it has an order id the user has no row for |
| `ExecuteTrade.PlacedAtTheToldPrice` | app/services/execute_trade.py:174-205 | a placed order whose status reports a price is booked at that price, not at the ask, and so is its profit |
| `ExecuteTrade.PlacedRowIs` | app/services/execute_trade.py:188-205 | the row names the user, the alert and the contract, keeps the broker's order id, is failed on a rejection, and has a profit only as a filled close |
| `ExecuteTrade.Execute` | app/services/execute_trade.py:95-224 | the rows added, the one placement made or withheld, and the alert's flags, on every branch, including those where the positions, the placement or the status call raises |
| `ExecuteTrade.PlacedWithoutRowIff` | app/services/execute_trade.py:162-207 | an order is out without a row exactly when the placement, or asking for its status, raised |
| `ExecuteTrade.StatusErrorLosesTheRow` | app/services/execute_trade.py:172-174 | a clean buy that is accepted and whose status call raises: out, and without a row |
| `LedgerRuns.LegLifecycle` | app/services/execute_trade.py:49-92 | in every run each leg is the only one with its user and order id, follows the entry it exits with its contract and quantity, is a close for reconciling and for profit, and never enters open cost |
| `LedgerRuns.RunMovesForward` | app/services/order_lifecycle.py:108-128 | over every run rows keep their identity, and a filled or failed row never changes |
| `LedgerRuns.OpenCostIsBuysFilledAtOnce` | app/services/order_lifecycle.py:62-84 | a contract's open quantity and cost are exactly those of buys already filled when placed: legs, closes, futures and reconciling never enter, nor does a buy that was left resting |
| `LedgerRuns.RestingBuyStaysOut` | app/services/order_lifecycle.py:108-112 | a run in which a resting buy fills, is asked about, and still counts as not held |
| `RealisedCash.StepCash` | app/services/order_lifecycle.py:108-128 | one event of a run moves the realised cash by exactly what it books against the average at that time |
| `RealisedCash.RunsBalance` | app/services/order_lifecycle.py:54-85 | over any run that opens no more of a contract and closes what had been bought of it, the cash realised on it is proceeds minus cost, to within half a cent per close |
| `RealisedCash.ReportedTotalBalances` | app/services/performance.py:97-98 | and the reported total moves by just that when nothing else is closed |
| `RealisedCash.TakeProfitIsRealised` | app/services/order_lifecycle.py:88-131 | such a run: two contracts bought at 1.00, their take-profit leg filled at 1.50, and $100 realised |
| `LedgerRuns.PipelineMakesSteps` | app/services/ingest_pipeline.py:165-194 | carrying out any alert is one step of such a run, or none |
| `Sizing.BudgetIsSpentBest` | app/services/compute_quantity.py:13-61 | every budgeted mode buys the largest affordable count within the cap, or one |
| `Sizing.BestCountIsUnique` | app/services/compute_quantity.py:9-18 | that count is determined |
| `Sizing.SizingIsMonotone` | app/services/compute_quantity.py:26-62 | more budget and a lower price never buy fewer |
| `Sizing.WithinBudgetIff` | app/services/compute_quantity.py:17-18 | the order stays within budget exactly when a single contract does |
| `Sizing.CountedModesClamp` | app/services/compute_quantity.py:32-64 | without a budget, fixed sizing takes the user's number and every other mode the alert's, held between one and the cap |
| `Sizing.BudgetAndPriceAre` | app/services/compute_quantity.py:26-62 | what may be spent: the alert's own amount, else the share of the equity at risk, or $1000; at the ask, or without one at the limit price |
| `Sizing.EquityMattersIff` | app/services/compute_quantity.py:40-43 | the broker is asked for the equity exactly where the outcome depends on it |
| `ContractChoice.MatchExactContract` | app/services/validate_trade.py:8-27 | the search loop finds the first exact match |
| `ContractChoice.ValidateTrade` | app/services/validate_trade.py:68-132 | accumulating errors and reassigning fields gives the trade with the chosen contract |
| `ContractChoice.CleanIff` | app/services/validate_trade.py:75-109 | no errors exactly for a complete intent with a listed contract of enough interest and a spread of at most 50%; price, strike and expiration are the contract's |
| `ContractChoice.ChoiceIsEligible` | app/services/validate_trade.py:36-65 | the choice is a chain member of the right type and underlying, leaves the requested expiration only when no eligible contract has it, and is missing only when there is none |
| `ContractChoice.ExactWins` | app/services/validate_trade.py:84-89 | an exact match is taken whenever there is one, the first of them |
| `ContractChoice.ChoiceIsNearest` | app/services/validate_trade.py:58-65 | no candidate is nearer to the requested strike; for SPX the SPXW contracts are preferred |
| `Trade.IntTextReadsBack` | app/services/position_check.py:11-15 | a number in a message reads back as that number |
| `ContractChoice.FirstExactIsFirst` | app/services/validate_trade.py:18-27 | of several exact matches the first in the chain is taken |
| `ContractChoice.NearestIsFirst` | app/services/validate_trade.py:64-65 | of several nearest candidates the first is taken |
| `ContractChoice.WhereOfConcat` | app/services/validate_trade.py:43-62 | filtering keeps the chain's order |
| `RateLimit.RateLimiter.Dispatch` | app/middleware/rate_limit.py:15-28 | the pruned list decides as the full log of accepted requests: rejected exactly when the limit was accepted in the last 60 s; rejected and exempt requests leave no trace |
| `RateLimit.LimiterBoundsEveryInterval` | app/middleware/rate_limit.py:23-27 | no interval shorter than 60 s holds more accepted requests of a client and path than the limit |
| `RateLimit.RecentTwice` | app/middleware/rate_limit.py:23 | what one request prunes, no later one would have counted |
| `RateLimit.FullIff` | app/middleware/rate_limit.py:23-25 | the limit is reached exactly when the limit-th last accepted request is less than 60 s old |
| `AgentConfig.AgentConfigs.Get` | app/services/agent_config.py:87-98 | cache or row, with the cache's new content; on a fresh cache and with a session it equals the resolution of the current row |
| `AgentConfig.AgentConfigs.Update` | app/services/agent_config.py:122-165 | the row, the dropped cache entry and the result; freshness is kept |
| `AgentConfig.AgentConfigs.Invalidate` | app/services/agent_config.py:40-44 | one entry or all of them |
| `AgentConfig.AgentConfigs.ResetToDefaults` | app/services/agent_config.py:168-184 | a reset resolves to the defaults, whatever was stored, and leaves all other rows |
| `AgentConfig.OverrideIsReadBack` | app/services/agent_config.py:67-84 | a nonblank override is read back as written, up to blanks; a blank one gives the default |
| `AgentConfig.EditsAreIndependent` | app/services/agent_config.py:127-151 | an update clears, sets or keeps each field on its own; a field it does not mention keeps its value, and a model is cut to 200 characters |
| `AgentConfig.SettingsInForce` | app/services/agent_config.py:67-84 | each setting in force is its stored text, or the built-in one when that is missing or blank |
| `AgentConfigRaces.BeginEffect` | app/services/agent_config.py:87-91 | a read is served from the cache exactly for 30 s, and then leaves the cache alone |
| `AgentConfigRaces.UndisturbedRead` | app/services/agent_config.py:93-98 | its three steps, undisturbed, are the whole read, stamped with the time it began |
| `AgentConfigRaces.WriteEffect` | app/services/agent_config.py:40-44 | a writer changes one row and reaches no cache; an invalidation drops the keys it names |
| `AgentConfigRaces.NobodyWaits` | app/services/agent_config.py:87-98 | no step waits for another |
| `AgentConfigRaces.AgreesIffNoneInFlight` | app/services/agent_config.py:87-98 | with a key's entry dropped, as an update leaves it, the cache agrees with the table through every continuation without writes to the key or session-less reads of it, if and only if no reader of the key holds something else or is about to fetch the defaults without a session; then every read begun later returns the current settings |
| `AgentConfigRaces.ReadsAreRecent` | app/services/agent_config.py:87-98 | for every interleaving with threads and outside writers, a read returns what the table resolved to at some instant less than 30 s before it began, or later, or else the defaults left by a session-less read begun less than 30 s before |
| `AgentConfigRaces.RacingReadUndoesInvalidation` | app/services/agent_config.py:95-97 | a read that fetched before an update and stores after it puts the old settings back |
| `AgentConfigRaces.ReadWithoutSessionPollutes` | app/services/agent_config.py:93-97 | a read without a session leaves the defaults in the cache for readers that have one |
| `AlertAudit.TradeByAlert` | app/services/alert_audit.py:90-103 | the loop picks for each alert its first trade that is no take-profit leg, or else its first leg |
| `AlertAudit.EntryIsChosen` | app/services/alert_audit.py:98-102 | an alert with an entry never shows a leg; with one entry the choice is the same for every row order |
| `AlertAudit.AlertOutcomeIs` | app/services/alert_audit.py:68-73 | an alert is skipped for a reason or by its trade, and pending only while it has neither |
| `AlertAudit.EventOutcomeIs` | app/services/alert_audit.py:76-87 | a delivery counts by its own status only as a duplicate, without a subscription, or where it has no alert |
| `AlertAudit.EventShowsItsAlert` | app/services/alert_audit.py:128-153 | any other delivery is listed with the outcome, the trade and, unless it has a detail of its own, the reason its alert is listed with |
| `AlertAudit.ListAlertAudit` | app/services/alert_audit.py:156-192 | building, sorting and truncating gives the merge of the two pages of items |
| `AlertAudit.ListIsPageOfEverything` | app/services/alert_audit.py:156-192 | the merge of two truncated queries is descending, min(limit, total) long, omits nothing newer than what it lists, and has the times of sorting everything |
| `Pages.MergedIsPage` | app/services/alert_audit.py:191-192 | merging pages of two tables and truncating is a page of both |
| `Pages.PagesAgree` | app/services/alert_audit.py:161-162 | two pages of one table show the same keys in the same places |
| `AuditTrail.OutcomeTellsResponse` | app/services/alert_audit.py:68-73 | after the pipeline an alert is listed as skipped exactly if it was answered so, pending exactly if its handler raised, executed otherwise; it is processed unless it is pending or did not validate |
| `AuditTrail.FailedOrderIsListedAsExecuted` | app/services/alert_audit.py:68-73 | a futures order answered with an error, and one parsed with no contracts, both listed as executed |
| `Calendar.BoundsAbut` | app/services/performance.py:15-22 | month bounds are the firsts of consecutive months, and only December 9999 has none |
| `Calendar.EveryInstantHasOneMonth` | app/services/performance.py:15-22 | every UTC instant up to then is in the bounds of exactly one month |
| `Calendar.YearBegins` | app/services/performance.py:15-22 | in closed form, the Gregorian calendar: the first of a year is day 365y + y/4 - y/100 + y/400 |
| `Calendar.YearLayout` | app/services/performance.py:15-22 | and each month begins where the table of month lengths says, leap day included |
| `Performance.DailyPnl` | app/services/performance.py:66-85 | the loop reports exactly the days of the month with a realised trade, each with its sum |
| `Performance.PerformanceSummary` | app/services/performance.py:88-119 | totals, counts and the rounded win rate over the filled rows; the rate is a percentage |
| `Performance.WinRateIsShare` | app/services/performance.py:113-119 | the rate is the share of wins among the realised trades, to the nearest hundredth of a percent |
| `Performance.DaysSumToMonth` | app/services/performance.py:78-85 | the daily values add up to the cash realised in the month |
| `Performance.MonthsSumToTotal` | app/services/performance.py:97-98 | the months add up to the total: nothing is lost or counted twice |
| `Performance.MonthToDateIff` | app/services/performance.py:104-112 | month-to-date equals the current month's daily sum exactly when what is dated later sums to nothing |
| `Performance.LaterProfitIsMonthToDate` | app/services/performance.py:104-112 | a profit dated in the next month, as a database clock ahead of the service's can date it, counts as month-to-date |

## Left out

- HTTP, broker REST payloads, token refresh, OAuth, encryption, migrations, CRUD endpoints and logging: plumbing around the modelled code.
- The language model and the regular-expression alert parsers: what they return is any intent, any decision or an exception.
- JSON and SHA-256: a key is modelled by the fields that are hashed, so equal digests mean equal fields; "sell_to_close" in the stored intent is the action or an occurrence in the rationale, the other string fields being symbols.
- Python's whitespace and case tables: stripping and upper-casing are those of ASCII blanks and letters.
- Float rounding: `floor(float(...))` in sizing is an exact floor, and spreads, risk percentages and averages are exact rationals; the digits of the spread in its error message are not modelled.
- Same-device reconnects: registering over a live entry, and the old socket's later unregister, are ordinary steps here, but nothing is promised about the pushes that were waiting on the old entry beyond their timeout.
- Exactly-once delivery to a device: two concurrent pushes of one id may both be sent, an ack after the timeout leaves no mark, and a failed push falls back to HTTP.
- Task cancellation inside a push, and the hello and pong messages, which only touch; pings that fail are unregister steps.
- BridgeRegistry.DeviceBridgeRegistry.CleanupStale: the class shows the sweep undisturbed; its interleavings are those of `BridgeTheorems.FinishedSweepIsExact`.
- Overlapping reconciling passes of one user, which may overwrite each other's rows, and overlapping runs of the take-profit step: an event of `LedgerRuns` is one stretch of code between awaits.
- Completeness of repeated reconciling: the window of 20 rows also counts submitted rows that are skipped, hence the premise of `OrderLifecycle.SmallBacklogIsCovered`.
- The ingest handlers and the per-user slot as objects: they are steps of a machine on values, so sessions, rollback (which only discards what was not committed) and the lazily created lock objects of an event loop do not appear.
- Settings and subscription of a user changing while one alert is processed: the pipeline sees one snapshot of the user.
- The branch for a NinjaTrader connection whose adapter is of another class, which the adapter factory never takes.
- Errors of the database between two commits, other than the constraint violations of the alert's insert.
- What the HTTP client checks before sending beyond the length, the control characters and the port of the URL and the secret's alphabet: that it accepts the rest is an input (`restAccepted`).
- Market hours are a yes or no from outside; so are equity, chains and positions.
- Stop-loss and profit-target ticks, order types and broker names in rows: stored and passed on, never decided on.
- Webhook ingest events: their outcome function is modelled, their recording and payload truncation are not; the administrator's list, which filters by outcome after truncating, is not modelled.
- `list_trades` and its date filters.
