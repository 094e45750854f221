# Campus group buying: grab, order, recover

A Dafny model of the core of a campus group-buying backend, and proofs about it.
Users grab slots of a published good; a Redis script deducts the slot at once, a
RabbitMQ message asks a consumer to create the order in MySQL, and scanners
reconcile lost messages, close unpaid orders, judge deadlines and retry owed side
work. Three stores fail independently, so no single component enforces the rules
that matter. They hold because every step keeps one invariant across all of them.

## What is modelled

**The protocol** (`Protocol`, `Invariants`, `Safety`, `Recovery`, `Messages`). A state machine over Redis
keys, MySQL tables, queues, the notification table and everything running handlers
still have to do. Each event is one atomic operation of one store. Its flags say
whether it took effect and whether its caller learned of it, so that operations
fail, succeed unheard, interleave, or are cut off by a crash; messages are lost,
duplicated and reordered; locks expire at any time. Ids are fresh whenever they are
drawn. `Safety` states what holds in every run, `Recovery` who gets in and what can
still be reached from every state, `Messages` where messages and notices end up.

**Transactions** (`OrderTables`, `RowLocks`, `Stores`, `Deliveries`). What a
transaction does is a function on the tables. `Stores.MySql` proves the
statement-by-statement methods equal to it, `RowLocks` proves that interleaved
statements with row locks amount to a serial order of whole transactions, and
`Deliveries` that create messages may come in any order and any number.

**Handlers** (`Shared`, `Effects`, `Logic`, `Reliance`). The business layer as
methods of a class, with `Others()` between any two store operations: it may do
anything that keeps the stores sound and moves them onward, and a handler must
keep them sound with each of its own operations. `Reliance` proves that this is
what runs of the protocol provide. Two constants of the class sharpen the contracts:
`alone` switches interference off, so that they say what any pattern of failures can
lead to, and `reliable` failures; with both (`calm`) they state the exact effect and
carry the recovery results. A ghost counts the operations that failed or were not
heard, so that best-effort steps can promise that one failure alone loses nothing.

**Work queues** (`SortedSets`, `Compensation`, `Notifications`, `PendingMember`).
Sorted sets read in pages without deleting, compensation rows with their retry
schedule, notification rows behind a unique key, and the text form of a pending mark.

**Arithmetic** (`Backoff`, `TokenBucket`). The consumer's exponential wait in
wrapping 64-bit arithmetic, and the lazy token bucket over reals against a
reference that only counts calls in windows.

Times are nanoseconds and scores whole Unix seconds. An order is live unless it is
cancelled or closed. Two words used throughout: `Settled` means that a
member's order exists or that the good or user row is gone; `Waiting` are the
members without an order.

## Code and comments that disagree

The model follows the code.

- The comment on `BackoffDelay` speaks of a 16 s wait after the fifth failure
  (`backend/internal/model/compensation.go:45-58`); the fifth failure ends the work,
  so only 1, 2, 4 and 8 s occur.
- The comment on `notifyGroupBuyEvent` counts cancelled users among the recipients
  (`backend/internal/logic/notification.go:55-60`); cancelling deletes their sign-up
  row, so they are not told.
- The comment on `CloseExpiredOrder` mentions removing the user from the Redis member
  set (`backend/internal/dao/order.go:302-307`); releasing a slot only increments the stock.
- The comment on scheduling a close names a scan of the whole order table as its last resort
  (`backend/internal/logic/order.go:147-151`); no such scan exists.
  `Safety.PendingOrdersAreScheduled` proves in which four cases an order waits unscheduled,
  `Safety.LostOrdersAreNotRecovered` that nothing brings it back, and
  `Safety.OrderCanBeStranded` shows such a run.
- The comment on `Counted` says that a succeeded good goes on collecting members up to its
  maximum (`backend/internal/dao/order.go:45-50`); a grab is admitted only while the good is
  recruiting (`backend/internal/logic/grab.go:48-54`), so that after success only grabs that
  had passed this check before can fill it.
- The documented `stock = max_members - current_members`
  (`backend/internal/model/group_buy.go:26-27`) holds only under the condition proved in
  `Safety.StockIsMaxMinusCurrent`.

## Model

| member | source | states |
|---|---|---|
| Safety.NoOversell | backend/internal/dao/redis/grab.go:42-54 | in every run, with lost, duplicated and reordered messages, failing releases, expiring locks and crashes, the live orders of a good never exceed its published maximum and the stock stays in 0..max |
| Safety.SlotConservation | backend/internal/model/group_buy.go:26-27 | stock + members without an order + live orders + dead orders whose slot was never given back = the published maximum, in every state of every run |
| Safety.OnlyNamedLossesLeak | backend/internal/logic/order.go:280-286 | in every state of every run: stock + waiting members + live orders + slots on their way back + slots lost by an unheard winning cancel or close or by a return given up = the published maximum |
| Safety.DeadOrdersReturnTheirSlot | backend/internal/dao/redis/group_buy.go:68-74 | the slot of a cancelled or closed order is back or about to go back if and only if its run has not lost it in one of those ways |
| Safety.StockIsMaxMinusCurrent | backend/internal/model/group_buy.go:26-27 | the documented stock = max - current_members holds if and only if nobody waits for an order, every dead order's slot is back and the counter equals the live orders |
| Safety.StockCanRunAhead | backend/internal/model/group_buy.go:26-27 | a concrete run in which the documented equation fails: one grab whose order is not created yet |
| Safety.SlotCanBeGrabbed | backend/internal/logic/grab.go:39-129 | from any reachable state, whoever is not the publisher and not yet in, of a recruiting good before its deadline, unlocked and with stock, can reach a state with the slot taken, the stock one lower, the tables untouched and the message to send |
| Safety.EveryGrabIsRemembered | backend/internal/dao/redis/grab.go:42-54 | every member has an order or a pending mark, unless its good or user row is gone |
| Safety.AckOnlyWhenSettled | backend/cmd/main.go:28-57 | a message is acknowledged, and a mark removed, only when the order exists or the target is gone |
| Safety.RefusedExactlyWhenOrdered | backend/internal/dao/order.go:91-99 | in every run the create transaction is refused exactly when the user's order for the good exists, and then changes neither tables nor Redis; otherwise it writes one order waiting for payment, dated now |
| Safety.RepeatsChangeNothing | backend/internal/logic/pending.go:86-107 | once the order exists, no republished, duplicated or redelivered message and no stale or re-added mark changes a table, the stock or the members |
| Safety.OneTerminalOutcome | backend/internal/dao/order.go:220-359 | the winning pay, cancel and close calls of an order number exactly 1 once it left pending_pay and 0 before; its slot goes back at most once, never for a paid order; a losing call changes no table and no Redis key, reports nothing and starts no slot return |
| Safety.EndStatesAreFinal | backend/internal/dao/order.go:220-232 | an order row that left pending_pay is never changed again |
| Safety.OnlyTheWinnerWrites | backend/internal/dao/order.go:220-359 | an order row changes only by the pay, cancel or close that wins it, to exactly its status, a close dated now; a winner that hears of it goes on to drop the close task and, unless it paid, to give the slot back |
| Safety.ExactlyOneElection | backend/internal/dao/order.go:119-143 | a good leaves recruiting by exactly one reported transaction; the late success branch of the judge never reports; fullness is reported exactly once |
| Safety.StatusIsHighWaterMark | backend/internal/dao/order.go:124-143 | for a good that has not failed, recruiting, succeeded and full hold exactly when the largest count ever reached is below min, in min..max-1, or max; a failed one never reached min |
| Safety.FailedForGood | backend/internal/dao/group_buy.go:137-190 | a failed good never recruits again, and its counter stays below the minimum and at most the live orders |
| Safety.FailedGoodLags | backend/internal/dao/order.go:45-54 | a run in which a failed good has a live order that its counter does not include: grabbed, judged failed, then created |
| Safety.NeverClosedEarly | backend/internal/dao/redis/delay.go:44-75 | no order is closed less than 30 minutes after its creation, through second truncation, the open interval and compensated re-enqueueing |
| Safety.StaysScheduled | backend/internal/logic/delay.go:46-109 | an order once scheduled for closing stays scheduled until it has left pending_pay |
| Safety.PendingOrdersAreScheduled | backend/internal/logic/order.go:125-150 | in every run an order waiting for payment is scheduled for closing, about to be, or owed as compensation if and only if none of four things happened: its commit was not heard, its handler died before scheduling, scheduling and compensation row both failed, or the row was given up with nothing scheduled |
| Safety.LostOrdersAreNotRecovered | backend/internal/logic/order.go:147-151 | once lost in one of these ways, an order waits unscheduled for as long as nobody pays or cancels it, whatever the system does |
| Safety.OrderCanBeStranded | backend/internal/logic/order.go:104-127 | a run from publication to such an order: the answer to its commit was lost |
| Safety.NoticesExcludeEachOther | backend/internal/dao/notification.go:25-36 | one stored notice per (user, category, ref); never two of paid, cancelled and closed for one order; never success and failure for one good |
| Safety.SettledForGood | backend/internal/logic/order.go:70-127 | a member stays one, and one whose order exists or whose target is gone stays that way |
| Safety.OnlyTheHolderUnlocks | backend/internal/dao/redis/lock.go:49-77 | a lock goes only by expiring or by the token it was taken with, and is never overwritten |
| Safety.LocksAreFreed | backend/internal/logic/grab.go:76-95 | a held lock is about to be freed by its holder, unless taking it was not heard or its holder died |
| Recovery.NobodyJoinsTheirOwn | backend/internal/logic/grab.go:60-63 | no member and no order of a good ever belongs to its publisher |
| Recovery.ShutGoodsAdmitNobody | backend/internal/logic/grab.go:48-59 | once a good has left recruiting, is past its deadline or gone, it takes in nobody who had not passed the checks by then |
| Recovery.MarksAndClosesFallDue | backend/internal/dao/redis/pending.go:38-48 | in every run a mark left alone for 31 seconds is expired, and a close task left alone for half an hour and a second is due |
| Recovery.EveryGrabCanComeToItsOrder | backend/internal/logic/pending.go:64-107 | from every reachable state, whatever was lost before, each member whose good and user exist can come to its order by the clock, the reconciler, the broker and the consumer alone |
| Recovery.RenewalsFollowPublishing | backend/internal/logic/pending.go:86-107 | a renewal is begun by a republish that was heard, once for each, and by nothing else |
| Recovery.ScheduledOrderCanBeClosed | backend/internal/logic/delay.go:46-109 | from every reachable state a scheduled order that nobody pays or cancels can be closed half an hour and a second later, its slot about to go back |
| Recovery.EveryPendingOrderCanBeClosed | backend/internal/logic/delay.go:46-109 | the same for every order waiting for payment whose run has not lost its close |
| Recovery.StaleEntryCanBeRetired | backend/internal/logic/delay.go:69-80 | the entry of an order that has ended can be removed without touching a table |
| Messages.MessagesAreConserved | backend/internal/mq/consumer.go:140-170 | every create message ever published is acknowledged, lost by the broker, in the queue or in the hands of a consumer: no failure, nack or crash drops one |
| Messages.TrueNoticesArrive | backend/internal/logic/notification.go:30-46 | a notice about an order is on its way, owed or stored if and only if it is true, its addressee being the owner, and its run has not lost it in one of the named ways |
| Messages.ReadersAreConcerned | backend/internal/dao/notification.go:25-36 | every stored notice is meant for its reader: one about an order is true of it and for its owner, one about a good for somebody who ordered it or for its publisher |
| Messages.GroupsAreToldWhole | backend/internal/logic/notification.go:67-92 | telling a group starts a notice to everybody with a live order and to the publisher |
| Messages.VerdictsAreTold | backend/internal/logic/order.go:171-184 | a good leaves recruiting only by a create or by the judge, and whoever hears of it goes on to tell the group the right thing |
| Safety.StepKeepsInv | backend/internal/logic/order.go:70-305 | every step of every handler, store, broker and scanner keeps the whole invariant |
| Safety.RunsKeepInv | backend/cmd/main.go:101-166 | the invariant holds at the end of every run |
| Invariants.ConservedKept | backend/internal/dao/redis/group_buy.go:68-74 | every step keeps the slot account of every published good |
| Invariants.NoGrabLostKept | backend/internal/logic/order.go:191-196 | every step keeps a mark or a settled state for every member |
| Invariants.OneOutcomeKept | backend/internal/dao/order.go:220-359 | every step keeps the final status of each order equal to the one call that reported winning |
| Invariants.ElectionsKept | backend/internal/dao/group_buy.go:137-190 | every step keeps at most one reported change out of recruiting per good |
| Invariants.TimesKept | backend/internal/dao/redis/delay.go:44-55 | every step keeps each close task due no earlier than 30 minutes after its order |
| OrderTables.DuplicateMeansOrdered | backend/internal/dao/order.go:148-155 | error 1062 means the (user, good) order exists: the sign-up index never refuses on its own |
| OrderTables.CreateKeepsInv | backend/internal/dao/order.go:84-159 | the create transaction keeps one order per pair, sign-ups = users of live orders, and the counter and status discipline of every row |
| OrderTables.EndKeepsInv | backend/internal/dao/order.go:312-359 | cancel and timeout close keep the same table invariant |
| OrderTables.PayKeepsInv | backend/internal/dao/order.go:220-232 | paying keeps the table invariant and the set of live orders of every good |
| OrderTables.JudgeKeepsInv | backend/internal/dao/group_buy.go:137-190 | failing a good keeps the table invariant, and the defensive succeeded branch never finds a row |
| OrderTables.CounterAgreement | backend/internal/dao/order.go:106-117 | sign-up rows = live orders always; current_members equals them until the good fails, afterwards it lags and stays below the minimum |
| OrderTables.DecrementNeverSkipped | backend/internal/dao/order.go:268-273 | the guard current_members > 0 never skips the decrement on a good that still counts |
| RowLocks.InterleavingsSerialise | backend/internal/dao/order.go:76-80 | any interleaving of the statements of concurrent create, cancel, close, pay and judge calls ends with the tables, and the per-call results, of running the finished calls one after the other |
| RowLocks.SchedulesGoOn | backend/internal/dao/order.go:76-80 | no interleaving reaches an ill-formed transaction: every step that is enabled continues the schedule |
| RowLocks.CommitIsAlone | backend/internal/dao/order.go:84-159 | a transaction's uncommitted versions, written statement by statement, commit to exactly its one-step effect with the same counted, succeeded and full flags |
| RowLocks.ReportsAreTrue | backend/internal/dao/order.go:33-60 | a call is refused exactly when it leaves the tables as they are; a create reports counted, succeeded and full exactly when the count rose, the good left recruiting, or became full |
| RowLocks.StepSimulates | backend/internal/dao/group_buy.go:152-166 | each server step either leaves the committed tables alone or applies one whole call to them |
| RowLocks.InterleavingsKeepTables | backend/internal/dao/order.go:76-80 | every interleaving keeps the table invariant |
| Stores.MySql.CreateOrderTx | backend/internal/dao/order.go:84-159 | the four writes with rollback leave the tables of the one-step create and report its three flags or the duplicate |
| Stores.MySql.CancelOrderTx | backend/internal/dao/order.go:241-296 | cancels exactly a pending order of that user, with counter and sign-up, and returns its good |
| Stores.MySql.CloseExpiredOrder | backend/internal/dao/order.go:312-359 | closes exactly a pending order, with counter and sign-up, and returns its good and user |
| Stores.MySql.JudgeExpiredGroupBuys | backend/internal/dao/group_buy.go:137-190 | select then row-by-row update flips every row past its deadline the right way, and each id list holds exactly the rows flipped, once each |
| Stores.MySql.FailIfDue | backend/internal/dao/group_buy.go:155-161 | flips exactly a recruiting row past its deadline and short of the minimum, and says so |
| Stores.RedisServer.ExecGrabLua | backend/internal/dao/redis/grab.go:42-86 | the script command by command equals one atomic grab and replies accordingly |
| Stores.RedisServer.ReleaseGroupBuySlot | backend/internal/dao/redis/group_buy.go:68-74 | INCR only: members are never taken out |
| Stores.RedisServer.AcquireLock | backend/internal/dao/redis/lock.go:49-60 | taken only when free |
| Stores.RedisServer.FreeLock | backend/internal/dao/redis/lock.go:65-77 | deleted only when the token matches; a foreign token leaves the locks alone |
| SortedSets.RangeByScore | backend/internal/dao/redis/pending.go:38-48 | one page: at most 1000 entries strictly below the bound, lowest scores first, all of them if fewer |
| SortedSets.ScanTakesFromBatch | backend/internal/dao/redis/delay.go:65-75 | a page takes min(n, 1000) entries from any batch of n lowest entries |
| Logic.Backend.GrabGroupBuy | backend/internal/logic/grab.go:39-129 | under interference and failures: each answer is right of the row at the moment it was read and of the slots at the moment the script ran, so that acceptance means recruiting, before the deadline, not the caller's own, and stock left; accepted or already in means a member that is remembered; under failures only: an accepted grab is published unless something failed, nothing else publishes, refusals before the script leave the slots alone; without either: the exact answer and the exact effect on all stores |
| Logic.Backend.GrabWithLock | backend/internal/logic/grab.go:76-95 | lock, pre-deduct and unlock leave the lock keys as they were |
| Logic.Backend.PreDeduct | backend/internal/logic/grab.go:96-124 | a pre-deduct is never taken back, published or not |
| Logic.Backend.GetGrabStatus | backend/internal/logic/grab.go:141-162 | not grabbed means no member at the call; in progress means a member without an order at the call; an order number is the user's order |
| Logic.Backend.CreateOrderByMessage | backend/internal/logic/order.go:70-185 | any verdict but a transient one leaves the participation settled; under failures only: a transient verdict means that something failed and leaves Redis and the mark alone, any other is the right one, and a new order is scheduled or owed unless two operations failed; without failures exactly the notices due, and the exact effect on all stores |
| Logic.Backend.InsertOrder | backend/internal/logic/order.go:104-127 | the order exists afterwards even when the commit's answer was lost; duplicate exactly when it existed before |
| Logic.Backend.FollowUp | backend/internal/logic/order.go:129-184 | one close task, scheduled or owed unless two operations failed; one payment notice, published or owed likewise; and only for the completing order one success notice to each signed-up user and the publisher |
| Logic.Backend.ScheduleCloseBestEffort | backend/internal/logic/order.go:145-153 | the close is scheduled, or owed as compensation, unless two operations failed |
| Logic.Backend.NotifyBestEffort | backend/internal/logic/notification.go:34-45 | the notice is published, or owed as compensation, unless two operations failed; nothing else goes out, and without failures it goes out once and is not owed |
| Logic.Backend.Dispatch | backend/internal/mq/consumer.go:140-170 | acknowledged only when settled; the failure count is reset on ack and raised by one on nack; under failures only, a message that is not acknowledged is back in the queue with its mark untouched |
| Logic.Backend.PayOrder | backend/internal/logic/order.go:203-248 | each reply states a fact about the row under any interference; under failures only, nothing in Redis is touched without a confirmed payment, and the notice of a confirmed one is published or owed unless two operations failed; without either, the exact effect on tables, close queue and mail |
| Logic.Backend.CancelOrder | backend/internal/logic/order.go:255-305 | as for paying; a slot is given back only for an order this very call ended, and only after a confirmed commit |
| Logic.Backend.ReleaseSlotBestEffort | backend/internal/logic/order.go:282-286 | needs a slot claimed by the caller and keeps the slot account |
| Logic.Backend.CloseOne | backend/internal/logic/delay.go:62-108 | a retired entry's order no longer waits for payment; under failures only: nothing but the close notice to the owner goes out, published or owed unless two operations failed, and an unconfirmed close leaves Redis alone; without failures, the exact effect on all stores |
| Logic.Backend.CloseExpiredOrders | backend/internal/logic/delay.go:46-109 | without failures: exactly the lowest due page, each task handled in turn, and exactly one close notice to the owner of each order that was waiting for payment; under failures nothing else goes out |
| Logic.Backend.ReconcilePendingGrabs | backend/internal/logic/pending.go:64-83 | without failures: exactly the lowest expired page is published again and renewed |
| Logic.Backend.RepublishPendingGrab | backend/internal/logic/pending.go:86-107 | without interference Redis is touched only after a confirmed publish; without failures the message is out once more and the mark renewed |
| Logic.Backend.JudgeExpiredGroupBuys | backend/internal/logic/delay.go:124-164 | without failures: every row past its deadline judged, exactly one failure notice to each of the audience of each failed good, nobody told of a late success; under failures nothing else goes out |
| Logic.Backend.FailDue | backend/internal/dao/group_buy.go:137-166 | with anybody in between: the reported goods are exactly those listed as due whose own update found them still due at its moment, once each, and all of them are failed or deleted afterwards; without failures exactly the goods that are due |
| Logic.Backend.SucceedDue | backend/internal/dao/group_buy.go:168-190 | the second branch reports no good, whatever happens between its statements |
| Logic.Backend.NotifyGroupBuyEvent | backend/internal/logic/notification.go:67-92 | nobody but the signed-up users and the publisher is told, each at most once; without failures each exactly once |
| Logic.Backend.RecoveryRounds | backend/internal/logic/pending.go:64-107 | with n expired marks, k failure-free rounds leave at most n - 1000k; every cleared one is settled; members and stock are unchanged and no good has more members waiting |
| Logic.Backend.RecoverEverybody | backend/internal/logic/pending.go:64-107 | once 40 seconds have passed and as many failure-free rounds as the marks fill pages, every member there was has its order or no target |
| Logic.Backend.DrainQueue | backend/internal/mq/consumer.go:92-136 | failure-free consumption empties the queue and clears exactly the marks of what was in it |
| Logic.Backend.CloseRounds | backend/internal/logic/delay.go:46-118 | with n due close tasks, k failure-free rounds leave at most n - 1000k, and no retired one belongs to an order still waiting for payment |
| Shared.NeverOversold | backend/internal/logic/order.go:272-286 | at any moment after any other, whatever handlers do in between, live orders and stock fit the slots the good was already published with, and slots given back stay back |
| Shared.MarksExpire | backend/internal/dao/redis/grab.go:42-54 | in whatever company handlers run, a mark left alone for 31 seconds is expired |
| Shared.CreateIsSound | backend/internal/logic/order.go:104-127 | creating moves one slot from a waiting member to an order and keeps everything handlers rely on |
| Shared.GrabIsSound | backend/internal/dao/redis/grab.go:42-54 | grabbing moves one slot from the stock to a waiting member |
| Shared.CancelIsSound | backend/internal/dao/order.go:241-296 | cancelling frees no slot by itself but lets the caller claim it |
| Shared.ReleaseIsSound | backend/internal/dao/redis/group_buy.go:68-74 | the INCR of a claimed slot keeps the account |
| Shared.JudgeIsSound | backend/internal/dao/group_buy.go:137-190 | failing one good keeps everything handlers rely on, and the late success finds no row |
| Reliance.RunsAreSound | backend/internal/logic/order.go:70-305 | what handlers rely on holds in every state of every run of the protocol |
| Reliance.RunsGoOnward | backend/internal/logic/order.go:70-305 | any later state of a run is one that handlers are prepared for: orders and members only grow, published terms never change, failed goods stay failed, returned slots stay returned |
| Reliance.ClaimsStay | backend/internal/logic/order.go:282-286 | a slot claimed by a handler stays claimed, by it alone, until that handler gives it back |
| Effects.CancelledUserIsNotTold | backend/internal/logic/notification.go:55-66 | after a cancel the user is a recipient of the good's notices exactly when he is its publisher, contrary to the comment there |
| Effects.AudienceIs | backend/internal/logic/notification.go:67-92 | the audience of a good are the users with a live order for it, and its publisher |
| Effects.AnswersAre | backend/internal/logic/grab.go:39-129 | in a calm call, when each of the answers to a grab is given, over row, users, lock, members and stock |
| Effects.ClosesRetire | backend/internal/logic/delay.go:46-109 | a page of closes removes exactly its tasks and leaves none of its orders pending |
| Effects.ResendRenews | backend/internal/logic/pending.go:86-107 | resending a page adds exactly its messages and changes no other mark |
| Effects.HitsHaveFailed | backend/internal/dao/group_buy.go:137-166 | every good a round reports was due when its update took effect, and nobody has brought it back since |
| Deliveries.DeliveryOrderIsIrrelevant | backend/internal/logic/order.go:112-123 | two continuations of one state that deliver the same set of messages, in any order and with any repetition, with payments but no cancel, close or judgement between, end with the same ordering users, sign-ups, counts and statuses |
| Deliveries.TablesFollowFromSet | backend/internal/dao/order.go:84-159 | those tables are a function of the starting tables and the delivered set |
| Deliveries.JoinsAddUp | backend/internal/dao/order.go:101-143 | n more orders raise the count by n and the status to what that count deserves; final states stay |
| Compensation.Scanner.ProcessDue | backend/internal/logic/compensation.go:138-189 | while producers keep adding work and operations take effect unheard: a scheduled entry is missing only when its row is no longer pending, each listed pending task is executed at most once and then ends as its outcome demands or unchanged, and nothing else is touched; if the stores answer, the listed tasks are all served |
| Compensation.Scanner.RunTask | backend/internal/logic/compensation.go:194-255 | the action is executed once; the row is deleted only if it succeeded and a failure counted only if it failed, and both happen when MySQL answers; the entry goes only with a row no longer pending and moves only by the delay of a retry |
| Compensation.Scanner.RecordFailure | backend/internal/dao/compensation.go:71-111 | a recorded failure is counted once and the fifth makes the row failed; an error may hide an update that took effect, never a second one; a row no longer pending is left alone |
| Compensation.Scanner.Compensate | backend/internal/logic/compensation.go:37-59 | row first, then schedule entry: the entry is added only to the row as it was inserted, still fresh and pending |
| Compensation.Scanner.CleanUp | backend/internal/logic/compensation.go:169-184 | removes only entries whose row is gone or final; no row that is still to be scheduled can lose its entry to it |
| Compensation.FreshRowsAreSpared | backend/internal/logic/compensation.go:37-59 | any sequence of operations of scanners and other producers leaves a row whose entry is still to come unscheduled and as it was inserted |
| Compensation.ProducersGoOnward | backend/internal/logic/compensation.go:37-59 | any number of producers, interleaved as they please, keep everything the scanner relies on between two operations |
| Compensation.OperationKeepsSound | backend/internal/dao/compensation.go:71-111 | every single statement and command of scanner and producers keeps scheduled pending rows in the ZSet, due in time, the failure counts exact, and every deleted row one whose action succeeded |
| Compensation.DroppedMeansDone | backend/internal/logic/compensation.go:212-255 | a row leaves the table only after its action succeeded, and is given up only after five executions that failed |
| Compensation.EntriesFallDue | backend/internal/model/compensation.go:45-58 | a scheduled pending row is due within a second after its wait: a fresh one at once, one with n failures after 2^(n-1) seconds |
| Compensation.FifthFailureIsFinal | backend/internal/model/compensation.go:45-58 | failed exactly at five failures, after waits of 1, 2, 4 and 8 seconds; the 16 s of the comment never occurs |
| Notifications.ConsumeAll | backend/cmd/main.go:65-99 | any deliveries, repeated, failing and unanswered, add exactly the well-formed notices some insert of which took effect, one row each; acknowledged exactly when heard or malformed |
| Notifications.Table.Create | backend/internal/dao/notification.go:25-36 | one row per (user, category, ref), whether or not the insert was heard; duplicate is reported exactly when the row existed |
| Notifications.Table.MarkRead | backend/internal/dao/notification.go:83-92 | hits exactly an unread row of that user |
| Notifications.Table.MarkNotificationRead | backend/internal/logic/notification.go:133-157 | absent, foreign and own notices told apart; reading twice is reading once |
| Backoff.ClampedShiftIsExact | backend/internal/mq/consumer.go:202-209 | for every failure count the wait is exactly min(2^(f-1), 30) seconds although the shift wraps in 64 bits; a wrapped value in (0, 30 s] is the exact one |
| Backoff.WaitsNeverShrink | backend/internal/mq/consumer.go:193-214 | waits grow with the failure count and stay between 1 s and 30 s |
| Backoff.Counter.Next | backend/internal/mq/consumer.go:202-209 | one more failure and the wait that belongs to it |
| Backoff.ConsumeAll | backend/internal/mq/consumer.go:140-170 | each outcome is acknowledged or waited for according to the failures since the last reset |
| Backoff.StreaksRestart | backend/internal/mq/consumer.go:212-214 | the first failure after an acknowledgement waits one second, each further one at least as long as the one before |
| TokenBucket.WindowBound | backend/internal/middleware/ratelimit/ratelimit.go:56-83 | in every window [s, t] the bucket lets at most capacity + rate * (t - s) calls through |
| TokenBucket.LazyIsContinuous | backend/internal/middleware/ratelimit/ratelimit.go:64-78 | the lazily refilled bucket stands at the level of a continuously filled one |
| TokenBucket.LazyAllowsExactlyWhatFits | backend/internal/middleware/ratelimit/ratelimit.go:56-83 | a call is let through exactly when counting it keeps every window ending now within its allowance |
| TokenBucket.LazyAdmitsWhatFits | backend/internal/middleware/ratelimit/ratelimit.go:56-83 | the bucket lets through exactly the calls that the window definition lets through |
| TokenBucket.RefusedCallsLeaveNoTrace | backend/internal/middleware/ratelimit/ratelimit.go:77-82 | a call the bucket refused, though it refilled the bucket and moved its clock, changes the answer to no later call |
| TokenBucket.KeysAreIndependent | backend/internal/middleware/ratelimit/ratelimit.go:60-77 | taking out all calls of all other keys, wherever they stand, changes no answer that a key gets |
| TokenBucket.LimiterWindowBound | backend/internal/middleware/ratelimit/ratelimit.go:56-83 | for any interleaving of keys, the limiter grants each key at most capacity + rate * (t - s) calls in every window |
| TokenBucket.MemoryLimiter.Allow | backend/internal/middleware/ratelimit/ratelimit.go:56-83 | answer and new level of the key's bucket follow from its old level; every other bucket is untouched |
| TokenBucket.Serve | backend/internal/middleware/ratelimit/ratelimit.go:56-83 | for any call sequence each answer is the one the key's own earlier calls determine, so that in chronological order every key keeps the window bound |
| PendingMember.RoundTrip | backend/internal/dao/redis/pending.go:78-89 | parsing what pendingMember wrote gives back the good and the user, for every pair of 64-bit ids |
| PendingMember.ParsePendingMember | backend/internal/dao/redis/pending.go:78-89 | result and error for every string |
| PendingMember.SplitFirst | backend/internal/dao/redis/pending.go:92-99 | split at the first separator, or the whole string and an empty rest |
| PendingMember.MembersAreDistinct | backend/internal/dao/redis/pending.go:29-31 | different pairs have different member strings |

## Left out

- Hot-rank scores: increments and recounts interleave, so no equality or bound with the order count holds; a hot-rank compensation is an action that may fail.
- Publishing a good is one step: the roll-back when Redis fails, and the moment between SET and DEL, are not modelled.
- Hot and latest lists, pagination, detail page, parameter checks of the HTTP layer, log output, configuration, authentication and avatar files.
- Prices, amounts, addresses (with the refusal of an empty one), payment times, member ids, titles and message texts.
- The panic of the grab handler on an absent user row (it reads the address of a nil user): answered as unavailable here.
- Malformed JSON bodies, and sorted-set members that do not parse in the scanners of close tasks and retries: nothing in the code writes them.
- MySQL beyond unique keys, guarded updates with row counts, row locks held to commit and roll-back: no deadlocks, lock waits that time out, or gap locks.
- Redis persistence, AMQP channels and topology, GORM, snowflake internals: ids are fresh when drawn.
- One clock for application and database, and Redis scores as exact integers.
- Logic.Backend.Others: stands for every other actor by its contract alone; Reliance shows that runs of the protocol meet each clause, soundness by RunsAreSound, Onward by RunsGoOnward and claims by ClaimsStay.
- Compensation.Scanner.Everybody: stands for all other actors by its contract alone, as Producers does; FreshRowsAreSpared and ProducersGoOnward prove these contracts of every sequence of operations.
- Logic.Backend.RecoveryRounds: assumes failure-free rounds without interference, as the drain bound is promised only there.
- Compensation.Scanner.ProcessDue: one scanner, with any number of producers between its operations, and the three known kinds of work; several scanners on one row, and unknown kinds, are not modelled.
- Compensation.Scanner.Execute: whether the compensating action succeeds is arbitrary here; what it does to close queue and mail is part of Protocol.
- Backoff.Counter.Next: the failure counter itself is unbounded, since 2^63 consecutive failures are out of reach.
- TokenBucket.WindowBound: real numbers in place of floating point, and a clock that does not run backwards.
- Mutual exclusion by the distributed lock is not claimed: it may expire at any time and safety does not rest on it.
- The statuses expired and completed are never written by the modelled code.
