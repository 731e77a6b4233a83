# Verification of the trade server

This project models the order-matching server and proves what its code promises. It has three parts.

**The matching engine and its ledger.** `Orders` holds the comparators and the crossing test. `PriorityQueue` is the
array heap behind each book, `Core` the engine over two of them, `Clients` the client-data manager. `Matching` and
`Ledger` are their specifications: a trade as a step on two multisets of orders, and what one trade does to accounts,
active maps and logs. `Exchange` is the running server as a state machine, one step per critical section, with a
handler thread, a matching thread and the stop signal interleaved in any way. `Sides` and `ExchangeSafety` prove what
every run keeps; `Agreement` and `ExchangeAgreement` when books and active maps are in step, and exactly when not;
`ExchangeTheorems` what follows for orders, accounts and quotes; `Cancels` that a cancel in three phases amounts to one
step, and what it answers; `Turns` what the matching thread does with a turn to itself; `Shutdown` how the matching loop
ends. `Persistence` and `Restart` are saving on stop and loading on start, `Lives` any number of runs one after another,
and `Locks` the mutexes.

**The lock-free queue that feeds the engine.** `DequeueProtocol` is the optimistic-count and overcommit protocol of one
producer stream, with any number of dequeuers; `WrapAround` relates its unbounded indices to the code's 64-bit words.
`FreeList` is the lock-free list of recycled blocks. `BlockIndex` (with `BlockIndexSafety`, `BlockIndexTheorems` and
`Enqueues`) is the block index of a stream together with the block counters and the pool the blocks come from. Every
machine takes one step per atomic operation another thread can see, in any interleaving, under sequential consistency.
`JointQueue` runs the three side by side and proves that none ever refuses what another asks of it. `HandOver` is the
bridge: the core thread as the queue's only consumer, with handlers publishing between any two of its steps;
`SoleConsumer` ties it to the protocol.

**The order wire codec.** `Wire` has the varint, fixed-word and length-delimited primitives of the Protocol Buffers
encoding specification (sections "Base 128 Varints" and "Message Structure"). `Utf8` has the encoding of Unicode text of
section 3 of RFC 3629 and the check on bytes of its section 4. `Codec` has the parse loops, printers, size functions and
merges of `TradeOrder` and `ActiveOrders`.

`Sums` and `Ring` hold finite sums and arithmetic modulo a capacity.

## Conventions

- Prices and balances are exact reals, amounts are 32-bit integers that wrap. Where a result needs distinct prices to be
  at least `EPSILON` apart, the predicates `Spaced`, `Sane` or `SpacedMarket` say so, and `Orders` shows what fails
  otherwise. What needs only comparators that are orders asks for `Comparable`, the exact condition of
  `ComparatorIsOrderIff`; what needs only positive amounts asks for `Positive`.
- Orders arrive with positive amounts, as the client enforces (client/user_interface.cpp:194), and with ids not used
  before, as the id generator intends (server/time_order_utils.cpp:3-10); both are conditions of `Enabled` in `Exchange`.
  The engine itself (`Core`) takes any orders; only its last contract clauses need comparable or sane books.
- Clock readings and the orders handlers send are arbitrary inputs of the model. So are the outcomes of database calls
  where the code goes on after a failure: balances, completed orders and quotes, truncation, the inserts that save the
  books (a failure ends the thread) and every lock path that an exception cuts short. Loads do not fail in the model.
- Handlers run one at a time, on the one thread that runs the I/O loop (server/main.cpp:40); the matcher runs on its own
  (server/server.cpp:25). `Exchange` has one handler thread, `Locks` any number.
- In `Exchange`, `Enqueue` and `Insert` are the two halves of make-order, as the code has them; `Make` is the same in one
  step. Results for all runs take any mixture. Agreement of books and active maps asks in addition for a `Timely` run:
  the matcher never looks for the record of an order that is queued and not yet inserted. `InvIffTimely` and
  `LateInsertAgreesIff` show that this is exactly when it holds, and `SplitMakeOrderBreaksAgreement` is a run that is
  not timely.
- `SameOrder` compares all of an order but its amount; `Filled` adds up what trades have taken from an id on a side.
- The clients of orders are known to the ledger. The code takes the username of an order from the request without
  checking it against the session (server/session_client_connection.cpp:275-295), so this is a hypothesis of `Enabled`;
  `MatchConservesMoneyIff` says what happens without it.

## Where the code and its descriptions differ

- The comparators are not strict weak orders in general, though `std::priority_queue` demands it
  (`ComparatorIsOrderIff`, `ComparatorsAreNotOrdersInGeneral`).
- `stock_loop` is meant to save the books when it ends, but it does so on only one of its two exits, and then without
  what was queued after its last look at that queue (`LoopSavesIff`, `EverythingIsSavedIff`).
- make-order puts an order on the queue before it is in the active map, so an active map may lack an order that is
  already traded (`LateInsertAgreesIff`).
- The start-up only logs a truncation that failed; the next restart then brings ended orders back
  (`FailedTruncationResurrects`).
- Merging two parsed messages is not the same as parsing the concatenation of their bytes when the second spells out a
  default value (`ConcatenationIsMergeIff`).
- An unknown buyer is noticed after the seller's account has been changed (`MatchConservesMoneyIff`).

## Model

| member | source | states |
|---|---|---|
| `Orders.Narrow` | server/core.cpp:124-125 | A 32-bit subtraction is exact exactly when its result is in range, and otherwise off by a multiple of 2^32. |
| `Orders.ComparatorIsOrderIff` | server/core.hpp:24-39 | Each comparator is a strict weak order on a set of prices if and only if being within EPSILON is transitive there; on any prices it serves first the earlier of two orders within EPSILON, else the higher buy or the lower sell. |
| `Orders.SpacedPricesAreOrdered` | server/core.hpp:18-39 | With distinct prices at least EPSILON apart both comparators are strict weak orders, by price and, at the same price, by earlier timestamp, and crossing means buy >= sell. |
| `Orders.ComparatorsAreNotOrdersInGeneral` | server/core.hpp:24-39 | Three prices 0.6 EPSILON apart on which neither comparator is a strict weak order. |
| `Orders.BestIsFirst` | server/core.hpp:24-39 | An order none is served before has the earliest timestamp of all within EPSILON of its price, and every other order of the book is priced worse. |
| `PriorityQueue.RootIsBestOfAll` | server/core.hpp:24-39 | The root of a heap under a lawful comparator is a best order of the whole book: nobody within EPSILON of its price has an earlier timestamp, and nobody is better priced by EPSILON or more. |
| `PriorityQueue.SiftedUpIsHeap` | server/core.cpp:72-78 | Sifting a new last element up restores the heap order. |
| `PriorityQueue.SiftedDownIsHeap` | server/core.cpp:86-88 | Sifting a replaced root down restores the heap order. |
| `PriorityQueue.Without` | server/core.cpp:184-201 | Removing an id leaves every other order with its multiplicity and none with that id. |
| `PriorityQueue.OrderBook.Push` | server/core.cpp:72-78 | A push adds exactly the order and keeps the heap. |
| `PriorityQueue.OrderBook.Top` | server/core.cpp:84-88 | The top is in the book; in a sound heap it is the earliest order within EPSILON of its price, and no order is better priced. |
| `PriorityQueue.OrderBook.Pop` | server/core.cpp:84-88 | A pop removes exactly the order that was on top and keeps the heap; from a sound heap that is the earliest order within EPSILON of its price, and no order was better priced. |
| `PriorityQueue.OrderBook.RemoveById` | server/core.cpp:183-201 | Draining into a fresh heap leaves exactly the orders whose id differs, in a valid heap; true if and only if the id was there. |
| `Matching.TradeShrinksTheBooks` | server/core.cpp:119-125 | Every trade, whatever the amounts, leaves fewer orders in the two books together: matching terminates. |
| `Matching.RemaindersAreExactIff` | server/core.cpp:121-125 | The lowered amounts are the exact differences if and only if those fit 32 bits. |
| `Matching.VolumeAtAfterTrade` | server/core.cpp:81-117 | A best-first trade lowers the volume available at exactly the prices between its two limits, by its own amount. |
| `Matching.EngineTradesTheClearingVolume` | server/core.cpp:81-143 | Any best-first sequence of trades that leaves nothing crossing trades the maximum over prices p of min(buys at p or above, sells at p or below) of the starting books, however ties are broken. |
| `Matching.FillsAddUp` | server/core.cpp:119-125 | What an id had open at the start is what it has open at the end plus what its trades filled. |
| `Matching.SidesFillAlike` | server/core.cpp:119-143 | Over any sequence of trades the two sides lose the same amount, the volume traded. |
| `Matching.NoTradeThrough` | server/core.cpp:81-117 | If any of an order traded, every same-side order that at the start was earlier at a price within EPSILON, or better priced by EPSILON or more, is completely filled at the end. |
| `Matching.SpacedNoTradeThrough` | server/core.cpp:81-117 | On spaced prices: every same-side order with the same price and an earlier timestamp, and every better priced one, is completely filled at the end. |
| `Matching.TradesTakeTheFirst` | server/core.cpp:81-117 | Each trade of a best-first sequence takes, on each side, an order then on the book with no earlier one within EPSILON of its price and no better priced one. |
| `Ledger.MatchConservesMoneyIff` | server/client_data_manager.cpp:52-101 | The sums of dollars and of roubles are unchanged by a match, self-matches included, if and only if it is not a known seller against an unknown buyer; it succeeds if and only if both are known. |
| `Ledger.MatchMovesAccounts` | server/client_data_manager.cpp:52-101 | Between known clients each account moves by exactly its own legs of the trade. |
| `Ledger.LimitsAreHonoured` | server/core.cpp:119-143 | If every trade's buy limit is at least its sell limit less a slack, no client's rouble flow is below what its own limits promise with that slack. |
| `Clients.ClientDataManager.InitializeFromDatabase` | server/client_data_manager.cpp:8-34 | The loops load funds, active maps and both logs from the rows: the accounts are those of the usernames in the rows, each with the balance of its last row, and the active maps hold the last row of each id. |
| `Clients.FundsAreTheLastRows` | server/client_data_manager.cpp:11-14 | A username has an account if and only if some row has it, and then the balance of its last row; for distinct usernames, of its own row. |
| `Clients.ClientDataManager.UpdateActiveOrderUsdAmount` | server/client_data_manager.cpp:39-50 | The active record of the order's side is lowered; an order not found changes nothing and answers false. |
| `Clients.ClientDataManager.ChangeClientBalance` | server/client_data_manager.cpp:79-101 | One wallet of one known client moves by the amount; an unknown client changes nothing and answers false. |
| `Clients.ClientDataManager.ChangeClientBalancesAccordingMatch` | server/client_data_manager.cpp:52-77 | The four changes in order, stopping at the first unknown client; a database failure afterwards changes only the answer. |
| `Clients.ClientDataManager.RemoveOrderFromActiveOrders` | server/client_data_manager.cpp:155-165 | The id leaves the active map of its side; true if and only if it was there. |
| `Clients.ClientDataManager.AddOrderToCompleted` | server/client_data_manager.cpp:123-153 | The order leaves its active map, and one log entry and one quote are appended, at its price and with the clock reading of the call, whatever the database answers. |
| `Clients.ClientDataManager.PushOrderToActiveOrders` | server/client_data_manager.cpp:181-188 | The order is recorded under its id on its own side. |
| `Clients.ClientDataManager.CreateNewClientFundData` | server/client_data_manager.cpp:170-179 | The client has a zero balance; no other account changes. |
| `Core.Engine.PlaceOrder` | server/core.cpp:72-78 | An order goes on the book of its side and nowhere else, and the heaps stay sound while the comparators are orders on the prices. |
| `Core.Engine.RemoveOrderById` | server/core.cpp:170-201 | The book of that side loses exactly the orders with the id, the other book nothing; true if and only if it had one. |
| `Core.Engine.MatchOrders` | server/core.cpp:119-163 | Both orders come back lowered even when the ledger refuses; the client data changes as one settlement; the answer is true if and only if the settlement went through and the database took it. |
| `Ledger.SettleSucceedsIff` | server/core.cpp:119-163 | A settlement goes through if and only if both orders are in their active maps and both clients are known. |
| `Core.Engine.MatchBest` | server/core.cpp:81-117 | One pass: the best orders of both books trade and are recorded, or nothing changes and no two orders cross. |
| `Core.Engine.ProcessOrders` | server/core.cpp:81-117 | Terminates on any books, and only with a book empty or on meeting two orders that do not cross; its effect is a sequence of legal trades, each recorded once; where the comparators are orders every trade takes the best of each side and nothing is left crossing, and on sane books the volume is the clearing volume of the start. |
| `Core.UncrossedTopsSettle` | server/core.cpp:81-117 | Where the comparators are orders, two best orders that do not cross mean that no two orders of the books cross. |
| `Agreement.Lower` | server/client_data_manager.cpp:39-50 | Replacing the order in hand and its active record by the same lowered order keeps a side in agreement. |
| `Agreement.Finish` | server/client_data_manager.cpp:123-165 | Dropping the order in hand and its active record together keeps a side in agreement. |
| `Agreement.PutBack` | server/core.cpp:103-108 | Putting the order in hand back on the book keeps a side in agreement. |
| `Agreement.OnBookIff` | server/client_data_manager.cpp:244-275 | In an agreeing side the book holds an id exactly when the id's active record is on the book. |
| `Sides.TakenKept` | server/core.cpp:81-117 | Taking an order off the book for a trade keeps every order of the side in one place, with fills and open amount adding up to what was placed. |
| `Sides.RemovedKept` | server/core.cpp:170-201 | Taking a cancelled id off the book keeps the rest of the side where it is, and loses no order that has not ended. |
| `Sides.PlacedHereKept` | server/session_client_connection.cpp:275-295 | A new order queued joins its side once, with nothing filled. |
| `ExchangeSafety.KeepsBase` | server/core.cpp:35-53 | Every step of either thread and of the stop, with make-order in its two real halves, keeps: each order in one place until it ends, fills adding up, the logs, the accounts, the cancel answers and the tables. |
| `ExchangeSafety.EveryRunKeepsBase` | server/core.cpp:35-53 | Every reachable state of every interleaving satisfies that invariant, from any start, whatever was logged before. |
| `ExchangeAgreement.KeepsInStep` | server/core.cpp:81-117 | Every critical section but the first half of make-order keeps books, queues and the order in hand in agreement with the active maps. |
| `ExchangeAgreement.KeepsInv` | server/core.cpp:35-53 | Every such step keeps the whole invariant: agreement, and every trade paid but the one being recorded. |
| `ExchangeAgreement.InvIffTimely` | server/session_client_connection.cpp:275-295 | Over a whole run, with an insertion still to come counted as done, the invariant holds at the end if and only if the matcher never looked for a record that was yet to be inserted. |
| `ExchangeAgreement.LateInsertAgreesIff` | server/session_client_connection.cpp:275-295 | After the queue push and any steps of the matcher, the insertion leaves books and active maps in step if and only if no trade of the order had its record looked for, which is so if the order was not matched; the state is then the one that making the order in one step leads to. |
| `ExchangeTheorems.BookAndActiveMapAgree` | server/client_data_manager.cpp:181-188 | Along timely runs, with no critical section open, an order is in the active map with its present amount if and only if it is queued or on the book, once. |
| `ExchangeTheorems.TimelyRunsSettle` | server/core.cpp:119-143 | Along timely runs the trades whose money has moved are all trades but one still being recorded. |
| `ExchangeTheorems.EndedOrdersAreInactive` | server/client_data_manager.cpp:123-165 | Along timely runs a completed or cancelled order is in no active map, but for a cancel that has not answered yet. |
| `ExchangeTheorems.EveryOrderIsAccountedFor` | server/core.cpp:81-117 | In every run every order placed is on the market once, with what its fills have left of it, until it is completed, filled to the last unit, or cancelled, with something open, and never both. |
| `ExchangeTheorems.CompletedOrdersAreDone` | server/client_data_manager.cpp:123-153 | In every run a completed order has amount 0, was filled for all it was placed with, is not cancelled, on the market or logged twice, and has one quote at its price; earlier log entries stay. |
| `ExchangeTheorems.QuotesCarryCompletionTimes` | server/client_data_manager.cpp:123-153 | In every run the quotes since the start are those of the completed orders, in order, each at the price of its order and with the clock reading of the trade that emptied it. |
| `ExchangeTheorems.AccountsFollowTrades` | server/client_data_manager.cpp:52-101 | In every run each client's dollars and roubles are the opening ones plus its own settled trades, and its roubles are not below its limits less EPSILON per dollar sold. |
| `ExchangeTheorems.SpacedAccountsHonourLimits` | server/core.cpp:89 | When all limit prices ever placed are spaced, no client's roubles are ever below what its own limits promise. |
| `ExchangeTheorems.MoneyIsConserved` | server/client_data_manager.cpp:52-121 | Over every run, make-order in its two halves included, the sums of all dollars and of all roubles stay what they were. |
| `ExchangeTheorems.MatchStepsRecordATrade` | server/core.cpp:119-143 | From the loop head any two crossing orders on the books can be matched, and the match with the six critical sections after it, run on their own, comes to one recorded and settled trade: the state machine agrees with the engine. |
| `ExchangeTheorems.TimelyRunsRefineAtomicMake` | server/session_client_connection.cpp:275-295 | Every timely run is step by step a run in which make-order is one step. |
| `Cancels.CancelStepCommits` | server/client_data_manager.cpp:244-275 | Seen as if begun cancels were over, a cancel takes effect at one step: a check that finds no record of the caller, or the look at the book. There it succeeds if and only if the book holds the caller's order, and the answer is the atomic one; no other phase changes anything. |
| `Cancels.StepCommits` | server/client_data_manager.cpp:244-275 | Every other step commutes with the unfinished end of a cancel. |
| `Cancels.RunsRefineAtomicCancel` | server/client_data_manager.cpp:244-275 | Every run with three-phase cancels, interleaved in any way with matching, is step by step a run in which a cancel is one step that succeeds if and only if the book then holds the caller's order, with the same answers in the same order. |
| `Cancels.EveryRunKeepsOpenActive` | server/client_data_manager.cpp:123-188 | In every run each order placed and neither completed nor cancelled has its active record, but for one whose make-order has not inserted it yet. |
| `Cancels.LoneCancelSucceedsIff` | server/client_data_manager.cpp:244-275 | From any reachable state with the handler idle and the matcher outside its critical section, a cancel whose phases run in succession answers true, and takes the order off book and active map, if and only if the book of that side holds an order with that id whose client is the caller; otherwise it answers false and changes nothing else. |
| `Cancels.RefusalsHaveReasons` | server/client_data_manager.cpp:244-275 | In every run a false answer was given at a step that found no active record of the id on that side owned by the caller, who then had no such order open, or that found the id not on the book. |
| `Cancels.SuccessesGoToTheOwner` | server/client_data_manager.cpp:244-275 | In every run a true answer was asked for by the client that placed the order, on the side it was placed on. |
| `ExchangeTheorems.CancelledOrdersAreGone` | server/client_data_manager.cpp:244-275 | In every run a cancel that answered true took its order off once; the order had something open, and is never completed or on the market again. |
| `ExchangeTheorems.SplitMakeOrderBreaksAgreement` | server/session_client_connection.cpp:275-295 | A run from a good start, with the matcher's turn between the push and the insertion, that ends with a completed order listed as active and a trade nobody paid. |
| `Turns.MatcherMovesIff` | server/core.cpp:35-53 | The matching thread can take a step until its loop is over, but for its wait, which an order in either queue or the stop ends. |
| `Turns.LoneTurnSettles` | server/core.cpp:35-117 | Woken by an order and left alone, the matching thread puts all that is queued on the books and settles them by legal trades, each recorded in the client data, before it waits again: nothing queued, no two orders crossing. |
| `Shutdown.LoopSavesIff` | server/core.cpp:35-53 | When the loop has ended it has saved the books if and only if the stop came between its reading of the guard and its second reading of the flag; a queue it had already emptied in that turn then keeps what came later, any other is empty. |
| `Shutdown.OutMeansStopped` | server/core.cpp:35-53 | The loop has only ended when the stop signal was handled during the run. |
| `Shutdown.StandingAtTheEnd` | server/core.cpp:35-53 | At the end of the loop every order that has not ended stands exactly once, saved, on a book or in a queue, with what its fills have left of it. |
| `Shutdown.EverythingIsSavedIff` | server/core.cpp:35-53 | At the end the tables hold the old rows and the saved books; they hold all that stood on the market if and only if nothing is left on a book or in a queue, and they are the old rows if nothing was saved. |
| `Shutdown.StopWhileMatchingLosesTheBooks` | server/core.cpp:35-53 | From any reachable state in which it matches, a stop leads out through the guard with every resting order still on the books and the tables as they were. |
| `Persistence.DrainToDatabase` | server/core.cpp:6-18 | Whatever insert fails, table and book together hold what they held; all is saved if and only if the book is empty; no order saved is behind one that was not; the other table is left alone. |
| `Persistence.SaveAllActiveOrders` | server/core.cpp:6-18 | Tables and books together hold what they held; a failure among the buys leaves all sells unsaved. |
| `Persistence.LoadAllActiveOrders` | server/core.cpp:20-33 | Loading adds the rows of the tables to the books as multisets and keeps the heaps sound. |
| `Persistence.ActiveMapOfRows` | server/client_data_manager.cpp:16-23 | The active map built from rows with distinct ids shows exactly those rows, whatever their order. |
| `Persistence.LoadedIsAStart` | server/server.cpp:3-15 | Books and active maps of the same fit rows are a good start for the exchange, whatever completed orders and quotes were loaded with them. |
| `Restart.SavingTurn` | server/core.cpp:42-49 | The saving branch absorbs everything queued and then moves both books into the tables, up to an insert that fails; no order is lost from the two together. |
| `Restart.StartUp` | server/server.cpp:3-20 | A start rebuilds the books and active maps of the tables, in agreement, loads each account with the balance of its last row, and truncates the order tables; from fit rows it is a start of the exchange. |
| `Restart.StopAndRestart` | server/core.cpp:6-53 | Whatever was in the tables, the new books and what a failed insert left on the old ones are the old rows and the books with everything queued absorbed; with every insert done tables and books are those of one restart. |
| `Lives.NextStartIsGood` | server/server.cpp:3-15 | With the tables empty while it ran, any run that has ended leaves tables from which the constructors make a good start again. |
| `Lives.LifeIsRestarted` | server/server.cpp:9-15 | A run and its restart, seen from outside, are one restart of tables and saved books; the next start has exactly what was saved if and only if the tables were empty. |
| `Lives.FailedTruncationResurrects` | server/server.cpp:12-18 | After a failed truncation the next restart brings every order of the start back: an untouched one twice, one completed, cancelled or partly filled as it had been. |
| `Lives.OrdersSurviveRestarts` | server/server.cpp:9-15 | Over any number of lives, each with any activity, saved in full and with its truncation done, every order is carried through the restarts once, with what the fills of all lives have left of it, until it is completed or cancelled for good. |
| `Lives.ChainFrom` | server/server.cpp:9-15 | A chain of lives may be joined at any of them, so the same holds of orders placed in a later life. |
| `Locks.PathsAreDisciplined` | server/client_data_manager.cpp:39-295 | Every lock path of the code, those cut short by a database exception included, takes its locks in the order core, client data, database, and gives all of them back. |
| `Locks.NoDeadlock` | server/core.cpp:35-53 | For any number of threads, while any is on a path some thread can take its next step, even if the shared mutex makes readers wait for waiting writers. |
| `Locks.NoSelfDeadlock` | server/client_data_manager.cpp:39-295 | No thread waits for a lock it holds, and a thread between paths holds none. |
| `DequeueProtocol.WinnersFit` | third-party/moodycamel/include/moodycamel/concurrentqueue.h:2551-2562 | If every ticket that passed its test left room for itself, all that passed fit below the tail together. |
| `DequeueProtocol.ClaimKeepsInv` | third-party/moodycamel/include/moodycamel/concurrentqueue.h:2559-2562 | Claiming the head keeps the invariant, and the head was below the tail. |
| `DequeueProtocol.KeepsInv` | third-party/moodycamel/include/moodycamel/concurrentqueue.h:2487-2619 | Every atomic step of the enqueuer and of any dequeuer keeps the protocol's invariant. |
| `DequeueProtocol.HeadNeverPassesTail` | third-party/moodycamel/include/moodycamel/concurrentqueue.h:2487-2619 | In every interleaving head <= tail, and the optimistic count is head + overcommit + tickets in flight. |
| `DequeueProtocol.ClaimsArePublished` | third-party/moodycamel/include/moodycamel/concurrentqueue.h:2559-2562 | Every claim is of an index already published, not yet delivered, that no other dequeuer reads. |
| `DequeueProtocol.EveryClaimYieldsItsElement` | third-party/moodycamel/include/moodycamel/concurrentqueue.h:2559-2606 | Each claimed index has delivered the element enqueued at it or is read by exactly one dequeuer. |
| `DequeueProtocol.DeliveredIsAPrefix` | third-party/moodycamel/include/moodycamel/concurrentqueue.h:2487-2619 | With nobody reading, exactly the first head elements have been delivered, each as enqueued. |
| `DequeueProtocol.LocalsStayInRange` | third-party/moodycamel/include/moodycamel/concurrentqueue.h:2551-2562 | No subtraction of counters goes below zero and no index out of range. |
| `DequeueProtocol.LoneDequeueSucceedsIff` | third-party/moodycamel/include/moodycamel/concurrentqueue.h:2551-2619 | Once all tickets are settled a dequeue on its own finds an element if and only if there is one, whatever the earlier races, and otherwise leaves the stream as it was. |
| `WrapAround.CircularLessIsLessIff` | third-party/moodycamel/include/moodycamel/concurrentqueue.h:476-483 | On wrapped words circular_less_than means less-than exactly when the true difference fits in half a word. |
| `WrapAround.SizeApproxIsTheDifference` | third-party/moodycamel/include/moodycamel/concurrentqueue.h:1737-1742 | size_approx on words is the true difference, or 0 when the head has passed the tail that was read. |
| `WrapAround.EnqueueIsRefusedIff` | third-party/moodycamel/include/moodycamel/concurrentqueue.h:2487-2497 | The room test refuses an enqueue exactly at a block start where the queue would reach half a word. |
| `WrapAround.WordsSimulate` | third-party/moodycamel/include/moodycamel/concurrentqueue.h:2551-2562 | While live differences fit in half a word, each step on words is the step on unbounded indices, wrapped. |
| `WrapAround.RunsOnWordsAgree` | third-party/moodycamel/include/moodycamel/concurrentqueue.h:2487-2619 | Whole runs agree through any number of wrap-arounds. |
| `WrapAround.SlotOfAgrees` | third-party/moodycamel/include/moodycamel/concurrentqueue.h:2948-2964 | The signed block-offset division and the mask find the slot the unbounded indices name, also across a wrap. |
| `FreeList.KeepsInv` | third-party/moodycamel/include/moodycamel/concurrentqueue.h:1459-1538 | Every atomic step of any thread in add or try_get keeps the list's invariant. |
| `FreeList.NodesAreListedOnce` | third-party/moodycamel/include/moodycamel/concurrentqueue.h:1459-1538 | Following the links from the head visits each listed node once and ends. |
| `FreeList.PopInstallsTheSuccessor` | third-party/moodycamel/include/moodycamel/concurrentqueue.h:1473-1500 | A successful head compare-and-swap installs the present successor of the node it removes, and that node's should-be-on-freelist flag is clear. |
| `FreeList.FlagStaysClear` | third-party/moodycamel/include/moodycamel/concurrentqueue.h:1491-1500 | The flag of a node being taken stays clear, with at least the two references the thread is about to drop. |
| `FreeList.NoNodeGoesToTwo` | third-party/moodycamel/include/moodycamel/concurrentqueue.h:1473-1500 | No node is being taken by two threads, and a node being taken is not on the list. |
| `FreeList.TakenNodesAreOut` | third-party/moodycamel/include/moodycamel/concurrentqueue.h:1491-1500 | A node returned by try_get is off the list and no thread is taking or adding it. |
| `FreeList.QuiescentListHoldsTheDifference` | third-party/moodycamel/include/moodycamel/concurrentqueue.h:1459-1538 | With all threads idle the list holds exactly the nodes added and not taken, each with one reference. |
| `FreeList.MembershipMoves` | third-party/moodycamel/include/moodycamel/concurrentqueue.h:1459-1538 | A node enters the system only by being added and leaves it only by being handed to the caller that took it. |
| `FreeList.LoneTryGetTakesTheHead` | third-party/moodycamel/include/moodycamel/concurrentqueue.h:1473-1510 | From any reachable state a try_get that runs alone returns null if and only if the list is empty; otherwise it takes the head, leaves the tail, and drops its two references. |
| `FreeList.LoneAddPutsOnTheList` | third-party/moodycamel/include/moodycamel/concurrentqueue.h:1459-1471 | From any reachable state an add that runs alone makes its node the head, in front of the old list, if and only if no thread is counted on the node; otherwise the list stays and the node waits. |
| `FreeList.LastHolderAddsTheNode` | third-party/moodycamel/include/moodycamel/concurrentqueue.h:1502-1537 | A thread that lets go of a node has to add it if and only if the node waits and the thread was the last counted on it; running alone it then makes it the head before it goes on. |
| `FreeList.NullOnlyIfEmpty` | third-party/moodycamel/include/moodycamel/concurrentqueue.h:1473-1510 | In every interleaving a try_get returns null only if the list was empty when, within that call, it read the head or its swap failed. |
| `BlockIndexSafety.FreeEntryIsClear` | third-party/moodycamel/include/moodycamel/concurrentqueue.h:2901-2916 | The entry found free belongs to no block from the oldest live one on, so keying it disturbs no look-up. |
| `BlockIndexSafety.GrownReaches` | third-party/moodycamel/include/moodycamel/concurrentqueue.h:2966-3008 | The copied index of twice the size leads to the same entries for every block from the oldest live one on. |
| `BlockIndexSafety.LookupSucceeds` | third-party/moodycamel/include/moodycamel/concurrentqueue.h:2940-2964 | The entry looked up for a claimed index holds that index's own key and block. |
| `BlockIndexSafety.FullCountIffFull` | third-party/moodycamel/include/moodycamel/concurrentqueue.h:1597-1610 | The counter reaches BLOCK_SIZE exactly when every index of the block has been counted. |
| `BlockIndexTheorems.KeepsInv` | third-party/moodycamel/include/moodycamel/concurrentqueue.h:2487-3008 | Every step of the producer, of any consumer and of the other users of the pool keeps the invariant. |
| `BlockIndexTheorems.LookupsSucceed` | third-party/moodycamel/include/moodycamel/concurrentqueue.h:2940-2964 | In every interleaving the look-up of an unconsumed index finds an entry with the right key and a block, whichever header and tail slot were read, across wrap-around and doubling. |
| `BlockIndexTheorems.ConsumersGetTheirElement` | third-party/moodycamel/include/moodycamel/concurrentqueue.h:2562-2606 | What a consumer moves out is the element enqueued at its index. |
| `BlockIndexTheorems.BlocksAreReleasedOnce` | third-party/moodycamel/include/moodycamel/concurrentqueue.h:2599-2607 | A block leaves the index at most once, after all its elements have been counted, with no other consumer left that could look it up. |
| `BlockIndexTheorems.QuiescentIndexHoldsTheUnconsumed` | third-party/moodycamel/include/moodycamel/concurrentqueue.h:2599-2607 | With no consumer at work the index holds exactly the blocks that are not used up, and all others have been released. |
| `BlockIndexTheorems.EveryBlockHasOneHolder` | third-party/moodycamel/include/moodycamel/concurrentqueue.h:3056-3112 | Each block is in exactly one of: initial pool, free list, this index, one thread in transit, or the other users; only blocks of the initial pool are recycled, only others destroyed. |
| `BlockIndexTheorems.IndexEntriesAreDistinct` | third-party/moodycamel/include/moodycamel/concurrentqueue.h:2901-2937 | Live blocks have distinct entries and distinct blocks, each entry with its block's key. |
| `BlockIndexTheorems.NoStepIsOutOfRange` | third-party/moodycamel/include/moodycamel/concurrentqueue.h:2940-2964 | No consumer ever reaches for a header, entry, cell or counter that is not there. |
| `BlockIndexTheorems.TheAssertionsHold` | third-party/moodycamel/include/moodycamel/concurrentqueue.h:1604-1609 | The code's assertions about the tail base, the block counter and, claims being of published indices, head against tail hold in every interleaving. |
| `Enqueues.LoneEnqueueAppends` | third-party/moodycamel/include/moodycamel/concurrentqueue.h:2487-2545 | From any reachable state an enqueue that runs alone, given memory when it asks for it, appends its element; at a block start it puts one more block in the index, from the pool while that lasts, else from the free list, and allocated only if both are empty. |
| `Enqueues.FailedEnqueueLeavesTheQueue` | third-party/moodycamel/include/moodycamel/concurrentqueue.h:2487-2517 | An enqueue that gives up before it writes its element has changed no element, index, claim or block in use. |
| `Enqueues.IndexIsFullIff` | third-party/moodycamel/include/moodycamel/concurrentqueue.h:2901-2931 | In every interleaving the index has no room for a block, and is doubled, if and only if the block one whole turn of the ring back is not used up. |
| `JointQueue.KeepsInv` | third-party/moodycamel/include/moodycamel/concurrentqueue.h:2487-2619 | Every step of the tickets, the block index and the free list together is one that each part can take, and keeps them fitting: same elements, same readers, and the same blocks in the free list. |
| `JointQueue.NoPartEverRefuses` | third-party/moodycamel/include/moodycamel/concurrentqueue.h:2551-2619 | In every interleaving a ticket that may claim finds the head below the tail, a block given back is not yet in the free list, and one the list hands out is free to use. |
| `JointQueue.EveryDequeueDelivers` | third-party/moodycamel/include/moodycamel/concurrentqueue.h:2559-2607 | The index claimed through the tickets and looked up in the block index gives the element enqueued at it, for the first and only time. |
| `JointQueue.MovedIsDelivered` | third-party/moodycamel/include/moodycamel/concurrentqueue.h:2562-2606 | What a consumer has moved out of a block is what the ticket protocol has delivered for its index. |
| `JointQueue.HeadNeverPassesTail` | third-party/moodycamel/include/moodycamel/concurrentqueue.h:2487-2497 | The head the enqueuer asserts about never passes the tail, by the ticket protocol and not by assumption. |
| `JointQueue.PartsRun` | third-party/moodycamel/include/moodycamel/concurrentqueue.h:1459-3112 | Each part of a joint run is a run of its own machine, so all that is proved of those runs holds of it. |
| `SoleConsumer.SoleConsumerIsTheHandOver` | third-party/moodycamel/include/moodycamel/concurrentqueue.h:2551-2619 | With one dequeuing thread the protocol does what the hand-over does step by step: a ticket drawn is good, nothing is taken back, and the first test passes exactly when the tail it read was past the head. |
| `HandOver.OrderQueue.Push` | server/order_queue.cpp:6-8 | An enqueue adds exactly its order at the end of the thread's own stream and leaves the other streams as they are. |
| `HandOver.OrderQueue.IsEmpty` | server/order_queue.cpp:14-16 | A false answer means some stream has an element, a true one that none had when the call began, with handlers publishing throughout. |
| `HandOver.OrderQueue.SettleTicket` | third-party/moodycamel/include/moodycamel/concurrentqueue.h:2559-2615 | A ticket drawn by a sole consumer is always good and yields the head of its stream. |
| `HandOver.OrderQueue.Dequeue` | third-party/moodycamel/include/moodycamel/concurrentqueue.h:2551-2619 | A sole consumer's dequeue of a stream that had an element takes exactly its head; otherwise nothing is taken. |
| `HandOver.OrderQueue.TryDequeue` | third-party/moodycamel/include/moodycamel/concurrentqueue.h:1125-1156 | If any stream had an element when the call began, exactly one published element is taken, the head of its stream; when nobody publishes meanwhile, of the fullest among the three newest non-empty streams. |
| `HandOver.OrderQueue.Pop` | server/order_queue.cpp:10-12 | As try_dequeue; a failed pop takes nothing. |
| `HandOver.DequeuedWasPublished` | third-party/moodycamel/include/moodycamel/concurrentqueue.h:1125-1156 | Whatever has been dequeued was published on some stream. |
| `HandOver.AbsorbQueue` | server/core.cpp:55-70 | Ignoring pop's answer is sound: the queue's book gains exactly the orders dequeued, all of its side, among them everything published when the call began; the heaps stay sound while the comparators are orders. |
| `HandOver.ComplementOrderBooks` | server/core.cpp:55-70 | Both queues are absorbed, each into its own book, and nothing else reaches the books. |
| `Wire.VarintHasItsSize` | proto/generated/trade_market_protocol.pb.cc:1293-1340 | The size functions count exactly the bytes a varint takes. |
| `Wire.VarintReadsBack` | proto/generated/trade_market_protocol.pb.cc:1147-1195 | A varint reads back as the number written, leaving what follows it. |
| `Wire.VarintMeans` | proto/generated/trade_market_protocol.pb.cc:1147-1195 | Any bytes, padded with zero groups or not: a varint is read if and only if it ends within the limit, as the number its seven-bit groups spell, lowest first, leaving what follows. |
| `Wire.TruncationKeepsTheLowBits` | proto/generated/trade_market_protocol.pb.cc:1147-1195 | Whatever number was read, a 32-bit or 64-bit field gets the one in its range that is congruent to it modulo 2^32 or 2^64. |
| `Wire.TagMeans` | proto/generated/trade_market_protocol.pb.cc:1140-1146 | A tag is read if and only if its varint ends within five bytes, and is its low 32 bits. |
| `Wire.SignedReadsBack` | proto/generated/trade_market_protocol.pb.cc:1147-1195 | Signed numbers survive sign extension to 64 bits and truncation to 32. |
| `Wire.Fixed64ReadsBack` | proto/generated/trade_market_protocol.pb.cc:1156-1163 | A little-endian word reads back. |
| `Wire.FixedIsLittleEndian` | proto/generated/trade_market_protocol.pb.cc:1241-1250 | The eight bytes of a word, the lowest first. |
| `Wire.DelimitedReadsBack` | proto/generated/trade_market_protocol.pb.cc:1196-1205 | Length-delimited bytes read back, up to the longest length the runtime accepts. |
| `Utf8.ValidIffText` | proto/generated/trade_market_protocol.pb.cc:1196-1201 | The check on bytes accepts exactly the encodings of sequences of Unicode scalar values. |
| `Utf8.EncodingIsUnique` | proto/generated/trade_market_protocol.pb.cc:1196-1201 | No two sequences of scalar values have the same encoding. |
| `Codec.ParseIsSequential` | proto/generated/trade_market_protocol.pb.cc:1140-1226 | Parsing a concatenation is parsing the second part over what the first gave, for any bytes that parse. |
| `Codec.EncodedParsesAsMerge` | proto/generated/trade_market_protocol.pb.cc:1140-1291 | Printed fields parsed over any message merge into it. |
| `Codec.FieldsAreNumbered` | proto/trade_market_protocol.proto:15-27 | An order is printed field by field in number order, each with the key of its number and wire type, defaults omitted. |
| `Codec.RoundTripIff` | proto/generated/trade_market_protocol.pb.cc:1140-1291 | An order parses back to itself if and only if its username is the UTF-8 encoding of some sequence of Unicode scalar values and fits the format; any other is printed but does not parse. |
| `Codec.ConcatenationIsMerge` | proto/generated/trade_market_protocol.pb.cc:1140-1387 | Parsing two printed orders back to back gives their merge. |
| `Codec.LastOneWins` | proto/generated/trade_market_protocol.pb.cc:1140-1226 | An input gives the fields it mentions their last value and leaves the others as they were. |
| `Codec.ConcatenationIsMergeIff` | proto/generated/trade_market_protocol.pb.cc:1353-1387 | For any two inputs that parse, the concatenation parses to the merge if and only if the second spells out no default over a value of the first. |
| `Codec.SpelledOutZeroIsNotMerged` | proto/generated/trade_market_protocol.pb.cc:1353-1387 | Two inputs on which parser and merge differ. |
| `Codec.TradeOrder.ParseFrom` | proto/generated/trade_market_protocol.pb.cc:1140-1226 | The parse loop leaves in the message exactly what the field-by-field specification says, or fails where it does: on a username, when its length does not fit the input or its bytes are not the encoding of a text. |
| `Codec.TradeOrder.SerializeTo` | proto/generated/trade_market_protocol.pb.cc:1228-1291 | The printer appends exactly the encoding, defaults omitted. |
| `Codec.TradeOrder.ByteSizeLong` | proto/generated/trade_market_protocol.pb.cc:1293-1344 | The size, added up from the values, is the number of bytes printed. |
| `Codec.TradeOrder.MergeFrom` | proto/generated/trade_market_protocol.pb.cc:1353-1387 | Fields that differ from their default overwrite, the others stay. |
| `Codec.EncodedListsParseAsMerge` | proto/generated/trade_market_protocol.pb.cc:3264-3347 | Printed lists parsed over any message append to it. |
| `Codec.ListsAreNumbered` | proto/trade_market_protocol.proto:102-105 | Buys are printed as field 1 and sells as field 2, each as a delimited order. |
| `Codec.ListsRoundTrip` | proto/generated/trade_market_protocol.pb.cc:3264-3347 | Lists of printable orders parse back to themselves, in order. |
| `Codec.ListsConcatenationIsMerge` | proto/generated/trade_market_protocol.pb.cc:3264-3392 | Parsing two printed lists back to back appends the second to the first. |
| `Codec.ListInputsConcatenate` | proto/generated/trade_market_protocol.pb.cc:3264-3392 | For any two inputs that parse as lists, the concatenation parses to the merge, without exception. |
| `Codec.ActiveOrders.ParseFrom` | proto/generated/trade_market_protocol.pb.cc:3264-3317 | The parse loop appends each submessage, parsed by a new order object, or fails where the specification does. |
| `Codec.ActiveOrders.SerializeTo` | proto/generated/trade_market_protocol.pb.cc:3319-3347 | Both lists are written in turn, each order with its tag and its cached size; where the sizes are up to date that is the encoding. |
| `Codec.ActiveOrders.ByteSizeLong` | proto/generated/trade_market_protocol.pb.cc:3349-3372 | The size is the number of bytes printed, and the cached sizes are up to date afterwards. |
| `Codec.ActiveOrders.MergeFrom` | proto/generated/trade_market_protocol.pb.cc:3381-3392 | Both lists are appended. |

## Left out

- Weak memory: every atomic operation is taken as sequentially consistent; the acquire and release orders of the queue are not modelled.
- Liveness under contention: lost wake-ups, starvation and termination of compare-and-swap loops that others disturb are not considered; notifications are sent without the mutex. What an undisturbed call or turn does is proved (`FreeList.LoneTryGetTakesTheHead`, `Enqueues.LoneEnqueueAppends`, `DequeueProtocol.LoneDequeueSucceedsIff`, `Cancels.LoneCancelSucceedsIff`, `Turns.LoneTurnSettles`).
- Rounding of doubles: prices and balances are exact reals in the ledger, raw words in the codec.
- Foreign code: sockets, the database engine, password hashing, tokens, configuration and logging; their outcomes are inputs.
- The client program, sign-in and session bookkeeping, and the read-only views.
- The explicit-producer half, tokens, bulk operations, moves and swaps, thread-id hashing and allocation-failure rollbacks other than those of an enqueue; one implicit producer per thread is taken as given.
- An element constructor that throws inside enqueue.
- Unknown fields of messages: an input with one is outside the model (`Unmodelled`); messages other than the two.
- `HandOver.OrderQueue.TryDequeue`: the scan of all streams after a failed dequeue, and the overcommit branch of dequeue, are proved unreachable for a sole consumer and so have no code.
- `HandOver.OrderQueue.Interfere`: the handlers publish finitely often while the core thread runs (`supply`), since the absorbing loop would not end otherwise.
- `FreeList.KeepsInv`: fewer than 2^31 - 16 threads, so that a reference count cannot reach the flag bit.
- `BlockIndexTheorems.KeepsInv`: the free list is the set of blocks it holds (`JointQueue` puts `FreeList` in its place); the other producers are steps that take and return blocks, and the code's load of an entry's key and value before reusing it is one step, since only the producer writes keys.
- `WrapAround.WordsSimulate`: that no dequeuer sleeps through half a word of tickets or elements is a hypothesis (`Live`); the queue's own length is kept below it by the code (`EnqueueIsRefusedIff`).
- The save at the end of the loop is one step in `Exchange`; an insert that fails half-way through it is in `Persistence.DrainToDatabase` and `Restart.StopAndRestart`.
- A load that throws: it ends the start with the tables as they were.
- `Lives.OrdersSurviveRestarts`: lives whose stop or truncation went wrong are not in the chain; what those lose or bring back is `Shutdown.LoopSavesIff` and `Lives.FailedTruncationResurrects`.
- `Codec.RoundTripIff`: the length limit is that of the runtime library, which is not part of this repository.
- The bounds on how many completed orders and quotes are loaded at start.
