# Connection lifecycle of raknet-python: a Dafny model

`raknet-python` wraps RakNet in a synchronous and an asyncio API. One pump thread receives packets and
turns them into callbacks on a `Peer`; any number of application threads connect, ping, accept, receive
and close; whoever wins `_begin_close` takes the peer down. They share three tables, a mailbox per
connection, a pending object per connect or ping, and an accept queue with a close token. Much of it
happens outside the lock: `_closed = True`, `event.set()`, mailbox and queue operations. This project
models that engine and proves what holds in every interleaving of its steps.

## How the model is laid out

| files | what they model |
|---|---|
| `Types`, `Router` | packets, callbacks, and the dispatcher as a total function |
| `MailboxSpec` | the abstract mailbox both APIs promise: a FIFO closed at most once, whose close is seen only behind what was accepted before it |
| `SyncMailbox`, `Waiters` | `_Mailbox` as a class refining that FIFO; the threads blocked on its condition as a transition system |
| `AsyncioQueue`, `AsyncMailbox`, `AsyncMailboxObject`, `AsyncAccept` | `_AsyncMailbox` as a transition system over loop callbacks and task runs and as a class whose methods refine it; the asyncio accept queue |
| `PeerState`, `Protocol` | every region under the peer's lock and every write outside it as one update of a shared value; the pump, the closer and the callers as program counters over them |
| `Coherence`, `Delivery`, `Shutdown`, `AcceptQueue`, `Resolution`, `Outcomes`, `Pings`, `Waits`, `PingWaits` | inductive invariants of that transition system, and the theorems about all its runs |
| `Causes`, `Answers` | where every close exception, every outcome of a connect and every pong comes from, in all runs |
| `Stranding`, `Leaks`, `LateMessages`, `Survivors`, `PeerCloses`, `FailedConnects` | where a promise has an exception: exactly when it holds |
| `Witnesses` | concrete runs, from any initial state, that show why the theorems are not stronger |
| `Sequential`, `Effects`, `Demux` | route calls that nothing interrupts, field by field, and what they do to one guid |
| `Operations`, `Closing` | the callers' operations and `_finish_close` when nothing interrupts them, field by field |
| `Sweep`, `PeerObject` | `Peer`, `Connection` and the pending objects as classes updated in place; callbacks, router, pump loop and `_finish_close` with its loops, proved against the same updates |

A run is a sequence of labels; each label is one atomic step of one thread. `Initial(s)` is a fresh peer
with any number of idle threads and any `max_queue`. RakNet is the environment: `receive` returns nothing, a
packet or an exception at will, `connect` and `ping` may fail, and a timed wait may give up at any step.

## Results in words

* What `recv` returned followed by what the mailbox holds is always a gap-free prefix of the user packets
  routed for the guid since the connection was registered. After one refused put nothing follows. At most
  one message lands behind a close; one can land if and only if the pump had already looked the connection up
  for it and the limit admits a message.
* The connection table, the `_closed` flags and the close exceptions stay coherent, and an object that left
  the table never comes back.
* `_begin_close` is won once. After it at most one route call completes, everything in the snapshot is closed
  or signalled, and the pump and the closer take a bounded number of steps, on the `close` and on the crash
  path.
* Every close exception has its cause in the run: a close of that connection, a disconnect of its guid, a put at
  its limit, or the close of the peer with the connection in the table. Which of the two peer-wide reasons there
  is depends on who closed the peer: after an application's `Peer.close` no mailbox ever says that the pump
  crashed, and after a crash none says "peer closed".
* `Peer.close` does not close every connection. Of those there are when the peer is closed, the ones that
  every continuation finds closed when `_finish_close` is done are exactly those that were closed already, were
  registered, or that the pump was bound to close; a close that an application thread has begun cannot be
  counted on. One more can be registered afterwards, and stay, if and only if the pump is at receive, or about
  to register one, when the peer is closed.
* A connection that is still open afterwards, and that no thread is about to flag, was not in the snapshot. It
  was registered late, or some step took it out of the table in one of two ways: another connection of its guid
  was registered over it, or another connection of its guid was closed, for `_close_connection` pops by guid.
  That pop takes another connection out of the table if and only if its own connection is not registered while
  one of the same guid is. Once nobody is at work on such a connection, only the application closes it, and
  until then a `recv` beyond its last message does not end.
* Each pending connect and each pending ping has at most one resolver, its outcome is complete when its event
  is set, and it is final. The outcome is that of a packet routed for it from its own address, with that packet's
  failure, guid or data, or it comes from the close of the peer.
* If no connect is registered beside another live connect to the same address, no caller is stranded and a
  timed-out connect leaves nothing behind. Without that assumption: registering a connect strands nobody in any
  continuation if and only if no other connect to the address is live; and it lets no timed-out connect leave an
  open connection if and only if no other connect to the address that may time out has one open or in the
  making. The same holds of pings and stranding.
* For a connect whose start RakNet refuses, no connection is ever made if and only if the pump had not begun to
  make one when the entry is popped, and none is left open if and only if, besides, the one made was closed.
* One close token frees every blocked accept, in both APIs and in every schedule, and no connection is accepted
  twice or out of order.
* Both mailboxes refine the same FIFO. In the asyncio one there is exactly one sentinel once the close
  callback ran, `_size` is exact, and a closed mailbox lets every blocked getter finish in every schedule.
* A single `notify` per put loses no wakeup as long as no `poll` finds the mailbox unready. A `poll` that does
  makes it unsafe, whatever its timeout: with the default of zero `wait_for` still waits once, which puts the
  caller in the waiter list and releases the lock, so the next put may notify the poll and leave a get asleep.
* With nothing pending and no caller at work, the state of a guid depends only on the packets that carry it;
  and such uninterrupted routing is a run of the concurrent system.

The code decides more than the repository's README says. Its error table
(README.md:117-118) ties `ConnectionClosedOK` to a graceful remote disconnect and `ConnectionClosedError` to
a silent loss; the code also raises the first after a local close and after `Peer.close`, and the second
after a queue overflow and a pump crash. The model follows the code (`RakTypes.CloseReason`).

## Model

| member | source | states |
|---|---|---|
| Router.RouteEncode | src/raknet/_router.py:43-61 | every callback the sink can be given has a packet that is routed to exactly that callback, so no branch shadows another |
| Router.RouteIsExact | src/raknet/_router.py:43-61 | exactly the empty packets and the unlisted ids below the first user id are dropped; a callback carries the packet's own address, guid and bytes, and a failure is reported with the packet's own id |
| Router.RoutePong | src/raknet/_router.py:60-61 | for every four time bytes and every data a pong leads to the callback with the packet's address, guid and just that data; a pong too short for its time bytes carries none |
| Router.RouteById | src/raknet/_router.py:43-59 | of any other packet only the id matters, whatever bytes follow it: each user, control and failure id leads to its own callback, a failure id to its own failure |
| MailboxSpec.Summary | src/raknet/_peer.py:51-72 | for every history of the abstract mailbox: what was delivered is the first part of what was accepted, in order |
| MailboxSpec.ShutFixes | src/raknet/_peer.py:59-63 | the first close of a history fixes the reason and the position of the close for good, whatever closes follow |
| MailboxSpec.HistoryLaws | src/raknet/_peer.py:65-72 | deliveries are a prefix of acceptances, and every raise has a first close before it, carries its reason, and comes after everything accepted before that close was delivered |
| SyncMailbox.Mailbox.constructor | src/raknet/_peer.py:45-49 | an empty open mailbox with the given limit |
| SyncMailbox.Mailbox.Put | src/raknet/_peer.py:51-57 | accepts if and only if there is no limit or fewer messages than it are queued, also when closed; then the message is last in the queue and accepted by the abstract mailbox, otherwise nothing changes |
| SyncMailbox.Mailbox.Close | src/raknet/_peer.py:59-63 | the exception is set unless there is one, the queue stays; a close of the abstract mailbox |
| SyncMailbox.Mailbox.Get | src/raknet/_peer.py:65-72 | returns and removes the oldest message, else the close exception, else gives up; each only as the abstract mailbox allows |
| SyncMailbox.Mailbox.Poll | src/raknet/_peer.py:74-76 | tells whether a get would finish at once, and changes nothing |
| Waiters.StepCovered | src/raknet/_peer.py:51-76 | one region under the condition lock, with every caller that finds nothing joining the waiter list whatever its timeout, keeps the count of notified waiters at least that of queued messages while someone sleeps, up to notifications used up by pollers, and nobody asleep on a closed mailbox |
| Waiters.AlwaysCovered | src/raknet/_peer.py:51-76 | the same in every run of puts, closes, gets, polls, timeouts and steals |
| Waiters.NoLostWakeup | src/raknet/_peer.py:51-76 | if no poll finds the mailbox unready, no run from the start reaches a state with a sleeping get and fewer notified gets than queued messages |
| Waiters.LosesIff | src/raknet/_peer.py:51-76 | from any state a run can reach: no continuation without further waiting polls loses a wakeup if and only if none is lost already and, on an open mailbox whose limit admits a message, no poll is in the waiter list or, notified with time left, able to come back to it |
| Waiters.PollIsSafeIff | src/raknet/_peer.py:74-76 | a poll leaves a safe mailbox safe if and only if it finds the mailbox ready or no message can ever be put, for every timeout, the default of zero included |
| Waiters.AtRiskLoses | src/raknet/_peer.py:51-76 | from every state with such a poll there is a run, with no further poll in it, to a get asleep beside a message |
| Waiters.DefaultPollLosesWakeup | src/raknet/_peer.py:56-76 | the shortest run, on every mailbox that can hold a message: a poll with the default timeout, a get, a put |
| Waiters.WokenGettersDrain | src/raknet/_peer.py:65-70 | in a state that has lost no wakeup and has no poll at risk, with a get asleep, the gets already notified can hand out all queued messages, one each, without another put |
| AsyncMailbox.StepKeepsInv | src/raknet/asyncio.py:18-59 | every put step, loop callback, get and cancellation keeps the sentinel, size, FIFO and close invariants, and what it does to the abstract mailbox is allowed there |
| AsyncMailbox.AlwaysInv | src/raknet/asyncio.py:18-59 | the same over whole runs, from any state that satisfies the invariants |
| AsyncMailbox.SentinelAndSize | src/raknet/asyncio.py:27-59 | in every run: one sentinel from the close callback on and none before; _size equals scheduled puts plus queued messages plus the counts in flight and never exceeds the limit; delivered, queued and scheduled messages are the accepted ones, in order |
| AsyncMailbox.PutAccepts | src/raknet/asyncio.py:27-37 | in every run a put goes on to count its message if and only if there is no limit or the messages accepted and not yet counted off are fewer than it |
| AsyncMailbox.Refinement | src/raknet/asyncio.py:27-59 | every run of the asyncio mailbox is a history of the abstract mailbox, with the close taking effect where it is scheduled |
| AsyncMailbox.ClosedStep | src/raknet/asyncio.py:50-59 | on a closed mailbox no step of the loop, the putter, a closer, a new get or a cancellation adds a blocked getter, each resumed get is one fewer, and each loop step lowers the measure |
| AsyncMailbox.BlockedGettersFinish | src/raknet/asyncio.py:50-59 | after the close callback, in every run, with puts, closes, new gets and cancellations mixed in: blocked getters and resumed gets together never exceed the getters blocked at the start, and while one is left the loop can finish one |
| AsyncMailbox.DrainedStaysDrained | src/raknet/asyncio.py:50-57 | after one get has raised, every later get raises the same exception at once, in every continuation |
| AsyncMailboxObject.Mailbox.constructor | src/raknet/asyncio.py:19-25 | the object starts in the initial state of the transition system, invariants included |
| AsyncMailboxObject.Mailbox.Put | src/raknet/asyncio.py:27-37 | accepts if and only if there is no limit or _size is below it; then the message is counted, scheduled and one accept of the abstract mailbox, otherwise nothing changes |
| AsyncMailboxObject.Mailbox.Close | src/raknet/asyncio.py:39-48 | schedules the close callback and refines the close step; the invariants stay |
| AsyncMailboxObject.Mailbox.RunCallback | src/raknet/asyncio.py:40-43 | the loop's next callback refines the callback step: a message is queued, or the first close adds the sentinel |
| AsyncMailboxObject.Mailbox.Get | src/raknet/asyncio.py:50-59 | a get up to its result or its first wait: it raises at once on a drained mailbox, takes and counts off the oldest message, raises at the sentinel and puts it back, or parks; it refines the get step and its result is the abstract operation |
| AsyncMailboxObject.Mailbox.Resume | src/raknet/asyncio.py:53-59 | the same for a get that is woken, including one whose item was stolen |
| AsyncMailboxObject.Mailbox.Unpack | src/raknet/asyncio.py:54-59 | a message is counted off and delivered; the sentinel goes back to the end and the close exception is raised |
| AsyncAccept.StepKeepsInv | src/raknet/asyncio.py:95-107 | every step keeps queue plus scheduled callbacks equal to the connections not yet accepted, in order, then the token once it is posted |
| AsyncAccept.AcceptInOrder | src/raknet/asyncio.py:208-214 | in every run connections are accepted in order of arrival and at most once, and the token exists exactly once after it is posted, behind every connection |
| AsyncAccept.CheckPassesIff | src/raknet/asyncio.py:208-214 | an accept is refused at its check if and only if the peer is closed then |
| AsyncAccept.GetServes | src/raknet/asyncio.py:208-214 | an accept past its check, or woken, returns and removes the connection at the head; at the token it schedules it again and refuses; on an empty queue it parks; nothing else changes |
| AsyncAccept.AcceptsServeAll | src/raknet/asyncio.py:208-214 | on an open peer as many accepts as there are connections at the head of the queue return exactly these, in order, and none is refused |
| AsyncAccept.RankFalls | src/raknet/asyncio.py:208-214 | once the token is posted, every step but an accept refused at its check lowers the measure, and none adds an unfinished accept |
| AsyncAccept.BlockedAcceptsFinish | src/raknet/asyncio.py:208-214 | after the token is posted, in every run: all steps but refused checks are bounded by the measure, and while an accept is parked, woken or past its check the loop can move |
| Coherence.StepCoherent | src/raknet/_peer.py:436-535 | every step of the pump, the closer and the callers keeps the tables coherent and moves flags, exceptions and logs only forward |
| Coherence.AlwaysCoherent | src/raknet/_peer.py:436-535 | the same over whole runs, between any two of their states |
| Coherence.RegistrationCoherence | src/raknet/_peer.py:470-494 | from the start, at any two points of a run: registered means right guid and open, an exception means closed, flags and first exceptions stand, and what left the table stays out |
| Delivery.StepDelivers | src/raknet/_peer.py:503-528 | every step keeps, for every connection, the account of messages offered, in flight, queued, received, refused and late |
| Delivery.AlwaysDelivers | src/raknet/_peer.py:503-528 | the same over whole runs |
| Delivery.GapFreeDelivery | src/raknet/_peer.py:503-517 | in every interleaving received plus queued messages are a gap-free prefix of the user packets for the guid since registration, and all of them while the connection is registered and no put is under way; they fall short of the packets looked up for it by at most one, and only if its put was refused or is in progress; at most one lands after the close; the limit holds |
| Delivery.RefusedIsFinal | src/raknet/_peer.py:503-517 | after a refused put no message is looked up for or added to that connection, in any continuation |
| LateMessages.StepShut | src/raknet/_peer.py:51-63 | once a mailbox is closed and no put that can succeed is in flight for it, no step accepts a message, and that stays so |
| LateMessages.LandsIff | src/raknet/_peer.py:503-509 | after a mailbox has been closed, some continuation accepts a further message if and only if the pump is between looking this connection up and its put and the limit admits a message at all |
| Shutdown.StepControl | src/raknet/_peer.py:322-366 | every step keeps the roles of closer and pump, the single winner and the bounds on a closed peer |
| Shutdown.StepSweeps | src/raknet/_peer.py:449-460 | every step keeps: what the closer's loops have passed is closed or signalled |
| Shutdown.StepReasons | src/raknet/_peer.py:449-454 | every step keeps: PeerClosed and PumpCrashed are handed out by the closer only, and only to snapshot connections; which of the two it is, the Causes rows say |
| Shutdown.ExactlyOneCloser | src/raknet/_peer.py:436-447 | with any number of closes and a pump crash the state is handed out once, _finish_close completes at most once, and only one thread is ever inside it |
| Shutdown.ShutdownBound | src/raknet/_peer.py:349-359 | on a closed peer at most one more route call completes, the pending tables are empty, the connection table has at most one entry, and the pump has stopped when _finish_close is done |
| Shutdown.ReceivesBound | src/raknet/_peer.py:349-356 | in every continuation from a closed peer the pump receives at most once more, and not at all unless it is at receive already |
| Shutdown.SweepComplete | src/raknet/_peer.py:449-460 | when _finish_close is done every snapshot connection is closed with its mailbox closed, with PeerClosed or, if the pump closed the peer, PumpCrashed, or with one of the four reasons of its own; every snapshot pending is signalled, and no other connection has either of the two |
| Shutdown.RankFalls | src/raknet/_peer.py:322-328 | on a closed peer each pump or closer step lowers the measure and no caller's step raises it |
| Shutdown.SystemCanMove | src/raknet/_peer.py:349-366 | until the token is posted the pump or the closer has an enabled step |
| Shutdown.ShutdownTerminates | src/raknet/_peer.py:322-366 | in any interleaving pump and closer make at most the measure's number of steps, and until the token is posted they are never stuck |
| Causes.CloseHasCause | src/raknet/_peer.py:436-528 | in every run from the start every mailbox is closed with an exception that a step of the run gave cause for: LocalClose by a close of that connection, RemoteClose or ConnectionLost by a graceful or ungraceful disconnect that found it, QueueOverflow by a put at the limit, PeerClosed or PumpCrashed by an application's close of the peer, or a crash of the pump, that found it registered |
| Causes.StepCaused | src/raknet/_peer.py:436-528 | every step keeps that account, with what the pump, the closer and the callers are still to close |
| Causes.ClosedByCaller | src/raknet/_peer.py:322-328 | if the step of an application thread closes the peer, it is Peer.close; then in every continuation no mailbox is ever closed with PumpCrashed, and when _finish_close is done every connection that was in the table is closed with PeerClosed or a reason of its own |
| Causes.ClosedByCrash | src/raknet/_peer.py:357-366 | if any other step closes the peer, it is the pump's after a crash; then the same holds with PeerClosed and PumpCrashed exchanged |
| Closing.FinishCloseSweeps | src/raknet/_peer.py:449-460 | in whatever order an uninterrupted closer walks its lists, in the end exactly the objects that were in the tables are closed with PeerClosed, or PumpCrashed after a crash, failed, or signalled, the tables are empty, one token is posted and nothing else has changed: what the loops over lists leave |
| Survivors.StepEmptied | src/raknet/_peer.py:349-359 | on a closed peer with an empty connection table and the pump not about to register, every step keeps both |
| Survivors.ClosingIsCleanIff | src/raknet/_peer.py:436-447 | at the step that closes the peer, by Peer.close or by a pump crash: no continuation has a registered connection when _finish_close is done if and only if the pump is not at receive and not about to register a connection |
| Survivors.StepSettled | src/raknet/_peer.py:470-494 | a connection that is registered, closed, about to be flagged or waiting in the snapshot stays so in every step, except one that registers another connection of its guid or is the pop of its guid by the close of another connection |
| Survivors.OpenAfterFinish | src/raknet/_peer.py:449-494 | in every run, when _finish_close is done, a connection that is open and that no thread is about to flag was not in the snapshot; and it is registered, or a step of the run took it out of the table by registering another connection of its guid or by closing another one |
| Survivors.PopsAnotherIff | src/raknet/_peer.py:470-473 | the pop of Connection.close takes another connection out of the table if and only if its own is not registered while one of the same guid is |
| Survivors.ForsakenStaysOpen | src/raknet/_peer.py:470-494 | an open connection that has left the table with nobody at work on it stays open and unregistered and gets no further message, in every continuation, through Peer.close, until the application itself closes it |
| PeerCloses.StepDoomed | src/raknet/_peer.py:503-528 | every step keeps: a connection that the pump has found lost or overflowing, or is about to put into with a limit that admits nothing, is closed or still on its way to it |
| PeerCloses.StepSpared | src/raknet/_peer.py:449-454 | on a closed peer no step of the pump or the closer touches an open connection that is out of the table and that neither is at work on |
| PeerCloses.PeerClosesIff | src/raknet/_peer.py:436-454 | at the step that closes the peer, for any connection there is: every continuation in which _finish_close is done has closed it if and only if it was closed already, or registered, or the pump was bound to close it |
| AcceptQueue.StepAccept | src/raknet/_peer.py:256-265 | every step keeps the queue equal to the connections not accepted yet, then the token, which is in the queue or in one acceptor's hands |
| AcceptQueue.AcceptBaton | src/raknet/_peer.py:256-265 | in every run accepted, then queued connections are the incoming ones in order of creation, none twice, nothing stands behind the token, and tokens queued plus tokens held are one after _finish_close and zero before |
| AcceptQueue.BlockedAcceptsFinish | src/raknet/_peer.py:256-265 | after _finish_close, in every run: the threads inside accept make at most the measure's number of steps in all, and while one is blocked there is one that can move without waiting for a timeout |
| AcceptQueue.NoNewAcceptor | src/raknet/_peer.py:345-347 | on a closed peer no step adds a blocked accept and every acceptor step lowers the measure |
| Resolution.StepResolution | src/raknet/_peer.py:465-501 | every step keeps each pending in at most one of table, pump's hands, closer's hands, signalled, with an outcome exactly as complete as that place demands |
| Outcomes.SingleResolution | src/raknet/_peer.py:406-434 | in every run each pending connect has at most one resolver, a set event means exactly one of connection and reason, so the assertion in _finish_connect holds, and a ping woken without a pong means the peer is closed |
| Outcomes.OutcomeIsFinal | src/raknet/_peer.py:486-501 | once the event of a connect is set, event, connection and reason never change |
| Answers.StepRouted | src/raknet/_peer.py:486-501 | every step keeps: behind each reason and connection, given or on its way, there is the packet routed for that pending |
| Answers.OutcomeIsRouted | src/raknet/_peer.py:486-501 | in every run the reason of a failed connect is that of a failure packet routed for it from its address, or AttemptFailed for a pending in the snapshot of a closed peer; its connection has the guid of a success packet routed for it from its address |
| Answers.SweepFails | src/raknet/_peer.py:455-457 | when _finish_close is done every connect in its snapshot is signalled, with AttemptFailed and without a connection |
| Answers.PongIsRouted | src/raknet/_peer.py:530-535 | in every run the pong a ping holds is that of a pong packet routed for it from its address, with the packet's guid and data |
| Pings.StepResolves | src/raknet/_peer.py:530-535 | every step keeps each pending ping in at most one of table, pump's hands, closer's hands, signalled, with a pong only from the pump's write on |
| Pings.SingleRing | src/raknet/_peer.py:455-468 | the same in every run from the start, so at most one of pump and closer signals a ping |
| Pings.AnswerIsFinal | src/raknet/_peer.py:431-434 | once a ping is signalled, the pong its caller finds, or its absence, never changes |
| PingWaits.StepWaits | src/raknet/_peer.py:304-311 | every step that respects the one-live-ping assumption keeps each waiting ping's pending in exactly one place, under its caller's key |
| PingWaits.NoStrandedPing | src/raknet/_peer.py:304-311 | under the assumption, in every run, the pending of a waiting ping is in exactly one of table, pump's hands, closer's hands, signalled |
| PingWaits.LostForEver | src/raknet/_peer.py:421-424 | a ping that is in no place is never signalled, whatever the continuation |
| PingWaits.PingIsSafeIff | src/raknet/_peer.py:421-424 | registering a ping leaves no continuation that strands a waiting caller if and only if no other ping to that address was live |
| Waits.StepWaits | src/raknet/_peer.py:283-302 | every step that respects the one-live-connect assumption keeps each waiting connect's pending its own, in exactly one place, and every timed-out connect without leftovers |
| Waits.NoStrandedConnect | src/raknet/_peer.py:283-302 | under the assumption, in every run, the pending of a waiting connect is in exactly one place, and for the second, unbounded wait that place is not the table |
| Waits.TimedOutConnectDoesNotLeak | src/raknet/_peer.py:293-301 | under the assumption, a connect that has raised TimeoutError has its pending out of the table, and any connection ever made for it is closed and not registered |
| Stranding.LostForEver | src/raknet/_peer.py:379-404 | a pending that is in no place stays there and is never signalled, whatever the continuation |
| Stranding.SecondConnectStrands | src/raknet/_peer.py:379-404 | a connect registered beside another live one can be left waiting for ever |
| Stranding.ConnectIsSafeIff | src/raknet/_peer.py:379-382 | registering a connect leaves no continuation that strands a waiting caller if and only if no other connect to that address was live |
| Leaks.StepWeak | src/raknet/_peer.py:283-301 | every step, registrations beside a live connect included if that one has no connection open or in the making, keeps timed-out connects without an open connection, an entry, or one in the making |
| Leaks.ConnectLeaksIff | src/raknet/_peer.py:379-404 | registering a connect leaves no continuation in which a timed-out connect has an open connection, or its entry, left if and only if no other connect to that address that may time out has a connection open or in the making |
| Stranding.TakenCanMove | src/raknet/_peer.py:486-501 | whoever took a pending out of the table has an enabled step until it is signalled |
| Stranding.TakenStep | src/raknet/_peer.py:486-501 | that thread's steps lower the measure or signal the pending; no other step takes it away or raises the measure |
| Stranding.SecondWaitEnds | src/raknet/_peer.py:294-299 | over whole runs the unbounded wait is backed by a committed thread with a bounded number of steps to go |
| Stranding.ReapingIsBacked | src/raknet/_peer.py:294-299 | the unbounded wait is only ever entered for a pending that is signalled or taken |
| FailedConnects.StepClean | src/raknet/_peer.py:486-494 | every step keeps a pending out of the callbacks' reach, makes no connection for it, and opens none again |
| FailedConnects.RefusedStartIsCleanIff | src/raknet/_peer.py:390-393 | when RakNet refuses to start an attempt, no connection is ever made for the connect that raises ConnectError, in any continuation, if and only if the pump had neither begun to make one nor made or attached one when the entry was popped |
| FailedConnects.RefusedStartLeavesNoneOpenIff | src/raknet/_peer.py:390-393 | and none made for it is open, in any continuation, if and only if the pump was not about to make one and the one made, if any, was closed |
| Witnesses.LateConnectionSurvives | src/raknet/_peer.py:436-447 | from any initial state with a thread there is a run that leaves a connection open and registered after _finish_close |
| Witnesses.DisplacedConnectionSurvives | src/raknet/_peer.py:480-484 | from any initial state with a thread there is a run that leaves a displaced connection open, and out of the table, after _finish_close |
| Witnesses.PoppedConnectionSurvives | src/raknet/_peer.py:470-476 | the same for the connection that displaced it, if the displaced one is closed first, because the pop goes by guid |
| Witnesses.TwoConnectsStrand | src/raknet/_peer.py:382 | from any initial state with two threads there is a run of two connects to one address that leaves one waiting for ever |
| Witnesses.LateMessageLands | src/raknet/_peer.py:51-57 | from any initial state with a thread, if the limit allows a message at all, there is a run in which a put lands after Connection.close closed the mailbox |
| Sequential.DeliverIncoming | src/raknet/_peer.py:480-484 | the uninterrupted pump steps add up to: register over any older entry, then queue for accept |
| Sequential.DeliverSucceeded | src/raknet/_peer.py:486-494 | they add up to: pop the pending, register a connection made for it, attach it, signal; without a pending nothing is registered |
| Sequential.DeliverFailed | src/raknet/_peer.py:496-501 | the uninterrupted pump steps are the three updates pop, give the reason, signal, in this order; Effects.FailedEffect says what they leave |
| Sequential.DeliverMessage | src/raknet/_peer.py:503-517 | they add up to: queue the message, or on a full mailbox drop it, deregister, flag and close with the overflow error |
| Sequential.DeliverDisconnected | src/raknet/_peer.py:519-528 | they add up to: deregister, flag, close with the reason for graceful or not |
| Sequential.DeliverPong | src/raknet/_peer.py:530-535 | they are the updates pop the pending ping, give it the pong, signal; Effects.PongEffect says what they leave |
| Effects.IncomingEffect | src/raknet/_peer.py:480-484 | every field after the callback: one more connection, open with an empty mailbox of the peer's limit, under its guid and last in the accept queue |
| Effects.SucceededEffect | src/raknet/_peer.py:486-494 | every field: the address leaves the pending table, one more open connection is under the packet's guid, the pending holds it and is signalled; without a pending nothing changes |
| Effects.FailedEffect | src/raknet/_peer.py:496-501 | every field: the address leaves the pending table, its pending holds the packet's own failure and is signalled, nothing else changes |
| Effects.MessageEffect | src/raknet/_peer.py:503-517 | every field: with no limit or fewer messages than it the message is last in the queue, otherwise it is dropped, the guid leaves the table, and the connection is closed with QueueOverflow unless it has a reason; the queued messages stay |
| Effects.DisconnectedEffect | src/raknet/_peer.py:519-528 | every field: the guid leaves the table and its connection is closed, with RemoteClose if graceful, otherwise ConnectionLost, unless it has a reason; the queued messages stay |
| Effects.PongEffect | src/raknet/_peer.py:530-535 | every field: the address leaves the table of pings, its ping holds the packet's address, guid and data and is signalled |
| Operations.ConnectStarts | src/raknet/_peer.py:368-394 | from any coherent state of an open peer: a new blank pending under the address, over any older one, and its caller waits |
| Operations.ConnectRefused | src/raknet/_peer.py:390-393 | when RakNet does not start the attempt, the call raises and leaves no entry under the address |
| Operations.ClosedPeerRefuses | src/raknet/_peer.py:345-347 | connect, ping, accept and Peer.close on a closed peer change nothing and are over at once, and so are a connect and a ping that find it closed at their second check |
| Operations.ConnectGivesUp | src/raknet/_peer.py:292-301 | a connect whose wait ends takes its address out of the table and raises TimeoutError if it was there, and otherwise waits again |
| Operations.CloseConnection | src/raknet/_peer.py:157-161 | Connection.close as a run: nothing on a closed connection; otherwise its guid leaves the table and it is closed with LocalClose unless it has a reason |
| Operations.CloseRuns | src/raknet/_peer.py:470-476 | the same past the test, also for a timed-out connect, which then raises |
| Operations.PingStarts | src/raknet/_peer.py:412-424 | a new blank ping under the address, over any older one |
| Operations.PingGivesUp | src/raknet/_peer.py:304-311 | a ping that cannot start or whose wait ends leaves no entry under the address |
| Operations.AcceptTakes | src/raknet/_peer.py:256-265 | on an open peer accept returns the connection at the head and removes it; it puts a token back at the end and refuses; on an empty queue it gives up and changes nothing |
| Operations.PeerCloseBegins | src/raknet/_peer.py:436-447 | Peer.close on an open peer empties the tables into the snapshot and goes on to join the pump |
| Operations.CrashCloses | src/raknet/_peer.py:357-366 | a crash at receive closes an open peer, with the tables in the snapshot and the pump as the closer; on a closed peer the pump stops |
| Sequential.SettleIsRun | src/raknet/_peer.py:349-356 | an uninterrupted callback is a run of the concurrent system made of pump steps, wherever the callers and the closer are |
| Sequential.DeliverAllIsRun | src/raknet/_peer.py:349-356 | so is the routing of any list of packets by the pump loop of an open peer |
| Sequential.SettleKeepsOpen | src/raknet/_peer.py:480-535 | no callback closes the peer |
| Demux.DeliverObjects | src/raknet/_peer.py:480-528 | a callback changes the connection objects of a guid as one step of the guid's own description, and only if it carries the guid |
| Demux.DeliverAllObjects | src/raknet/_peer.py:480-528 | after any list of callbacks the objects of a guid are that description run over the events that carry it |
| Demux.NonInterference | src/raknet/_router.py:43-61 | routing any packets leaves all objects of a guid, with flag, registration, mailbox and reason, as routing only the packets that carry it |
| Demux.LatestObject | src/raknet/_peer.py:503-528 | the newest object of a guid holds the messages since its incoming connection, cut at the limit or the first disconnect, closed for exactly that cause |
| Demux.DemuxMeetsSpec | src/raknet/_peer.py:480-528 | the same for what routing any list of packets leaves behind |
| Sweep.ConnsSwept | src/raknet/_peer.py:452-454 | whatever the order of the list, the first loop closes exactly its connections and touches nothing else; a mailbox closed before keeps its reason |
| Sweep.PendsSwept | src/raknet/_peer.py:455-457 | the second loop fails and signals exactly its pendings |
| Sweep.PingsSwept | src/raknet/_peer.py:458-459 | the third loop signals exactly its pings |
| Sweep.SweepIsSwept | src/raknet/_peer.py:436-460 | snapshot and loops together close, fail and signal exactly what was in the tables, empty them and post one token |
| PeerObject.Connection.constructor | src/raknet/_peer.py:100-109 | an open connection with its own empty mailbox of the peer's limit |
| PeerObject.Connection.Recv | src/raknet/_peer.py:151-152 | hands out the mailbox's next message or its close exception |
| PeerObject.Connection.Iterate | src/raknet/_peer.py:163-168 | yields exactly the queued messages in order; then it raises the close exception if that is a lost connection, an overflow or a pump crash, ends silently at any other, and waits on an open mailbox |
| PeerObject.Peer.constructor | src/raknet/_peer.py:187-216 | an open peer with empty tables and queue |
| PeerObject.Peer.IncomingConnection | src/raknet/_peer.py:480-484 | a new open connection with an empty mailbox is under its guid and last in the accept queue; the object graph matches the uninterrupted callback of the concurrent system |
| PeerObject.Peer.ConnectSucceeded | src/raknet/_peer.py:486-494 | the pending leaves the table and holds a new open connection, registered under the packet's guid, with its event set; without a pending no entry changes; the graph matches the callback |
| PeerObject.Peer.ConnectFailed | src/raknet/_peer.py:496-501 | the pending leaves the table and holds the given failure, with its event set; the graph matches the callback |
| PeerObject.Peer.Message | src/raknet/_peer.py:503-509 | below the limit the message is last in the mailbox; at it the connection leaves the table and is closed with QueueOverflow, unless it has a reason, the queue staying; an unknown guid changes no entry; the graph matches the callback |
| PeerObject.Peer.Overflow | src/raknet/_peer.py:511-517 | deregisters by guid, flags and closes with the overflow error |
| PeerObject.Peer.Disconnected | src/raknet/_peer.py:519-528 | the guid leaves the table and its connection is closed, with RemoteClose or ConnectionLost unless it has a reason, the queue staying; the graph matches the callback |
| PeerObject.Peer.PongReceived | src/raknet/_peer.py:530-535 | the ping leaves the table and holds a pong with the given address, guid and data, with its event set; the graph matches the callback |
| PeerObject.Peer.Dispatch | src/raknet/_router.py:43-61 | branching on the first byte delivers exactly the callback the dispatcher function names |
| PeerObject.Peer.PumpLoop | src/raknet/_peer.py:349-356 | a pump loop nobody interrupts delivers the callbacks of all packets in order, and none on a closed peer |
| PeerObject.Peer.CloseConnection | src/raknet/_peer.py:157-161 | closes an open connection with the local reason and deregisters its guid; does nothing on a closed one |
| PeerObject.Peer.Accept | src/raknet/_peer.py:256-265 | refuses on a closed peer without touching the queue, times out on an empty one, returns the oldest connection, or meets the token, puts it back and refuses |
| PeerObject.Peer.StartConnect | src/raknet/_peer.py:368-394 | refuses on a closed peer; registers a blank pending; takes the entry out again if RakNet does not start |
| PeerObject.Peer.AbandonConnect | src/raknet/_peer.py:396-404 | the entry of the address is gone, and the answer tells whether there was one |
| PeerObject.Peer.FinishConnect | src/raknet/_peer.py:406-410 | returns the reason or else the connection, never both nor neither |
| PeerObject.Peer.BeginClose | src/raknet/_peer.py:436-447 | exactly the caller that finds the peer open gets lists of exactly the objects in the tables, which are emptied |
| PeerObject.Peer.CloseAll | src/raknet/_peer.py:452-454 | the first loop is the fold over its list |
| PeerObject.Peer.FailAll | src/raknet/_peer.py:455-457 | the second loop is the fold over its list |
| PeerObject.Peer.RingAll | src/raknet/_peer.py:458-459 | the third loop is the fold over its list |
| PeerObject.Peer.Close | src/raknet/_peer.py:322-328 | on an open peer every connection in the table is closed, with PeerClosed unless it has a reason, every pending connect has AttemptFailed and is signalled, every ping is signalled, one token is posted and nothing else changes; on a closed peer nothing changes |
| PeerObject.Peer.Fail | src/raknet/_peer.py:361-366 | the same with PumpCrashed |
| PeerObject.Peer.Shut | src/raknet/_peer.py:436-460 | exactly the caller that finds the peer open sweeps exactly what was in the tables, with the given exception |

## Left out

- RakNet itself and src/raknet_python.cpp: receive, connect, ping, close_connection, cancel_connection_attempt and shutdown are the environment; the calls to close_connection, cancel_connection_attempt and shutdown change nothing that is modelled, and `notify` is not modelled.
- The numbers of the message ids below the first user id: they are not in the repository, so the router takes them as a parameter that only has to be distinct and below the first user id, which the repository's README gives as 0x86 (README.md:99).
- Argument checks and name resolution in `_start_connect` and `_start_ping`: `attempts`, passwords and resolver errors raise before any shared state is touched.
- `_start_ping`, `_finish_ping` and `ping` on objects: they are steps of `Protocol`, which is where the statements about them are proved; the classes hold pings only as far as callbacks and close need them.
- Clocks: a timeout is a nondeterministic choice to stop waiting; `round_trip_time` and the pump's sleep are not modelled.
- `send`, latency, statistics, bans, offline ping response, `serve_forever`, context managers, `__repr__`, the module-level factories: forwarding or thread start-up. `_owns_peer` is not modelled: the close of the peer that it adds is a further call of `Peer.close`.
- Exceptions inside a sink callback after a pending was popped: callbacks do not raise; a pump crash happens at receive. Exception texts are reduced to the constructors of `CloseReason`.
- A closed event loop (the swallowed RuntimeError in src/raknet/asyncio.py:33-36): the loop stays open.
- The asyncio `connect` and `ping`: on cancellation they look at the pending without waiting for the pump, so the no-leak theorem is for the synchronous `connect` only. `_ThreadsafeEvent` and `_create` are not modelled.
- The asyncio accept queue and the threads blocked on a mailbox condition are transition systems over values, not classes: what matters there are the steps of many tasks or threads on one object, which a sequential method cannot show.
- The order in which `_finish_close` walks its lists: `Protocol` lets the closer pick in any order, which includes the dictionary's; the classes take the lists in some order.
- `PeerObject` runs each method without interruption; interleavings are the subject of `Protocol`, over the same updates.
- Reads and writes of `_size`: taken as atomic, which is the assumption the source states at src/raknet/asyncio.py:28-29; with a second concurrent putter the count could be off, and only the pump puts.
- Fairness: the results on blocked accepts, getters and waits bound the steps of the threads concerned and show that one is always enabled; that an enabled thread eventually runs is the scheduler's part.
- Sources of `Condition` and `asyncio.Queue`: the waiter list, `wait_for` and the queue's wakeups are modelled after the Python standard library, which is not part of this repository.
