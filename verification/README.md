# A verified model of the msglib-cpp messaging core

msglib-cpp passes messages between the threads of a process. A send copies a value into one block for every mailbox
slot registered for a label, taking the blocks from a "small" or a "large" counted pool, and puts a message in each
mailbox's bounded queue. A receiver pops a message, reads the value behind it and releases the block. Timers turn
expiries into signals, which are sends without data.

The model has two layers over shared definitions.

**The step system** (`System.dfy`, on the program counters of `Threads.dfy`) is the whole library as threads run it.
A step is one lock operation, one access to a pool counter, one call of the memory resource, one test of a queue's
size, one change of a queue, or one test of a loop. What keeps a test and the change after it together is the mutex
alone: appending, refusing, popping, going to sleep and giving up have no test of their own. Any number of threads
send, receive (`pop`, `popWait`, `tryPop`, with spurious wake-ups and time-outs), write to and release received
messages, register and unregister mailboxes, and start and cancel timers; one thread handles timer signals. The
number of mailboxes, their queue capacities, the pool sizes and `MAX_RECEIVERS` are arbitrary. Mutexes are not fields:
a mutex is free when no program counter lies in a section that holds it. The state also records history: all popped
entries, a log of broadcasts with one outcome for each slot, who is responsible for each block, and which blocks were
dropped by a full queue.

- `Locks`, `Monitor`, `Broadcast`, `Ownership`, `Payload`, `Pools`, `Leaks`, `History`, `Wakeup`, `TimerTable` each state
  one part of the invariant and prove that every family of steps keeps it; `Invariant` joins the parts over runs.
- `Delivery`, `Linearization`, `ReceiveCalls`, `CallEffects`, `Progress`, `Bounds`, `Completion`, `Guarantee`,
  `TimerRuns`, `TimerLife`, `StaleTimers` hold the main results, for every reachable state or every run.
- `Scenarios` puts steps together to runs. `Misrouting` uses it to show that the condition on the pool sizes is exact,
  `LeakRun` that a block can be lost, and `StaleTimers` what a late cancellation can do.

**The classes** (`Receiver.dfy`, `Queues.dfy`, `BytePools.dfy`, `SharedData.dfy`, `Mailboxes.dfy`,
`TimerManager.dfy`) are the library's objects as one thread uses them, with the source's loops and in-place
updates, proved against specification functions. These are the functions the step system applies to its own state
(`AddSlot`, `RemoveSlot`, `EmplacedOn`, `PoppedFrom`, `StartIn`, `CancelIn`), and for a broadcast the account in
`Sequential.dfy`, whose closed form is proved there. `Agreement.dfy` proves that the steps of a broadcast, when no other
thread's step comes between, do the same.

`Messages.dfy` and `TimeConv.dfy` are pure.

## Where the code and its documentation differ

- A block whose `emplace` is refused by a full queue is never freed (include/msglib/Mailbox.h:142). The model keeps
  such blocks in `dropped`. `NothingElseLeaks` counts them exactly from the log of refused copies and shows that nothing
  else is lost, and `LeakReachable` gives a run that loses one.
- `SendSignal` returns true whatever happened to the copies (include/msglib/Mailbox.h:168-170); `SignalResult` says so.
- The clean-up branch after a failed `put` always frees into the small pool (include/msglib/Mailbox.h:144).
  `PutNeverFails` shows that it is never entered.
- `sizeof(T)` is narrowed to 16 bits in a message. `RoutingIff` gives the exact condition on the configuration,
  `RoutesOk`, under which every release still goes to the right pool, and `PayloadIntegrity` the exact sizes for which
  `as<T>` finds the value.
- `RegisterForLabel` and `UnregisterForLabel` before `Initialize` lock a mutex their own thread holds
  (include/msglib/detail/MailboxData.h:148-151). The class methods set and clear the mutex, and return `NeverReturns` on
  the second lock.
- `Timeval2Timespec` multiplies microseconds by 1000 whatever their sign (include/msglib/detail/TimeConv.h:32-42); its
  contract says from which count on the product leaves 64 bits.
- `HandleSignals` dequeues a signal before it takes the timer mutex (include/msglib/detail/TimerManagerData.h:110-115).
  Between the two another thread may cancel the timer, and `timerEvent` is then called for a destroyed object. The step
  system has two steps there and carries on with the old label and type. So a cancelled label may still get a signal:
  "while a label has no timer no signal is sent for it" is false (`HandlerCanBeStale`), and `SilentIff` gives the exact
  condition. The nested `cancelTimer` may even destroy a timer started since (`RestartedTimerLost`). `StaleIff` says
  exactly in which runs `timerEvent` is called for a destroyed timer, and `NeverStale` that it is not when clients do
  not cancel.

## Assumptions

- The step system starts initialized, and the timer table starts all null, although its declaration does not say so
  (include/msglib/detail/TimerManagerData.h:153). Creating an operating-system timer succeeds; deleting one discards its
  pending expiry.
- The memory resource may fail at any call and otherwise hands out a block that is not in use.
- A client releases a received message at most once, and writes only to a message it has received and not released.
- A destroyed `Timer` can still be read: its destructor leaves the label and type alone, and the monotonic resource does
  not use its bytes again (include/msglib/detail/TimerManagerData.h:118-141).
- Waiting on a condition variable follows section 33.5.3 of ISO C++17.

## Model

| member | source | states |
|---|---|---|
| Messages.RoutingIff | include/msglib/Mailbox.h:104-128 | every accepted size is released to the pool it was allocated from if and only if `largeSize < 65536` or `largeSize <= smallSize`, whatever the order of the two sizes |
| Messages.AcceptedFits | include/msglib/Mailbox.h:125-139 | a block of the pool chosen for an accepted size has room for the value, and a small block is taken whenever it has |
| Messages.AsIff | include/msglib/Message.h:36-51 | `as<T>` returns the value sent if and only if its size is below 65536, accepts only the narrowed size, and yields nothing for a message without data, whatever T is |
| Receiver.Receivers.Add | include/msglib/detail/Receiver.h:37-45 | when some slot is null the first such slot gets the mailbox and all others stay; when none is, nothing changes and the result is false |
| Receiver.Receivers.Remove | include/msglib/detail/Receiver.h:54-64 | every slot of the mailbox is cleared and no other; true exactly when no registration remains |
| Receiver.AddTakesFirst | include/msglib/detail/Receiver.h:37-45 | the specification of add changes the first null slot and no other |
| Receiver.AddRegisters | include/msglib/detail/Receiver.h:37-45 | one more registration unless all slots are taken; the others stay in their slots |
| Receiver.RemoveUnregisters | include/msglib/detail/Receiver.h:54-64 | all registrations of one mailbox go, the others stay in their slots |
| Receiver.SlotsRefineBag | include/msglib/detail/MailboxData.h:147-165 | over any sequence of calls on any labels the slots are the bounded multiset of registrations |
| Queues.Queue.Emplace | include/msglib/detail/Queue.h:76-86 | appends one element, or refuses and changes nothing exactly when the queue is full |
| Queues.Queue.TryPop | include/msglib/detail/Queue.h:95-106 | takes the oldest element, or reports an empty queue and changes nothing |
| Queues.Queue.Pop | include/msglib/detail/Queue.h:137-142 | takes the oldest element; on an empty queue, which nobody else fills here, it never returns |
| Queues.BoundedFifo | include/msglib/detail/Queue.h:44-142 | accepted values are those handed out followed by those queued, and the capacity is never exceeded |
| BytePools.Put | include/msglib/detail/BytePool.h:53-62 | copies the value to the start of the buffer exactly when there is one and it is large enough; the rest of the buffer stays |
| BytePools.BytePool.Alloc | include/msglib/detail/BytePool.h:166-178 | hands out a new block and counts it, exactly when the counter is positive and the memory resource does not fail |
| BytePools.BytePool.Free | include/msglib/detail/BytePool.h:185-194 | gives back any block in use and counts it; with exact counters before, this pool's is exact afterwards if and only if the block was its own; a null pointer changes nothing |
| SharedData.Resources.constructor | include/msglib/detail/MailboxData.h:85-94 | both pools are full, no label has a receiver |
| SharedData.MailboxData.Initialize | include/msglib/detail/MailboxData.h:111-142 | the first call that succeeds fixes the sizes; later calls return false and change nothing; it never returns exactly when its thread holds the mutex |
| SharedData.MailboxData.RegisterForLabel | include/msglib/detail/MailboxData.h:147-153 | adds to the label's slots and leaves all other labels; before initialization it locks the mutex twice and never returns, with the mutex held |
| SharedData.MailboxData.UnregisterForLabel | include/msglib/detail/MailboxData.h:158-165 | clears the mailbox from the label's slots and leaves all other labels; before initialization it locks the mutex twice and never returns, with the mutex held |
| SharedData.MailboxData.AllocateSmall | include/msglib/detail/MailboxData.h:185-195 | takes a block from the small pool only; before initialization it creates default pools first, or never returns when its thread holds the mutex |
| SharedData.MailboxData.AllocateLarge | include/msglib/detail/MailboxData.h:212-222 | takes a block from the large pool only; before initialization it creates default pools first, or never returns when its thread holds the mutex |
| SharedData.MailboxData.FreeSmall | include/msglib/detail/MailboxData.h:201-205 | gives any block to the small pool only, which keeps the counters exact if and only if the block came from there; nothing happens before initialization |
| SharedData.MailboxData.FreeLarge | include/msglib/detail/MailboxData.h:229-233 | gives any block to the large pool only, which keeps the counters exact if and only if the block came from there; nothing happens before initialization |
| Mailboxes.Mailbox.SendOne | include/msglib/Mailbox.h:134-149 | one copy: block, value and message reach exactly the receiver's queue tail, or the outcome says what was missing |
| Mailboxes.Mailbox.SendMessage | include/msglib/Mailbox.h:122-152 | pool, blocks and all queues of the label's mailboxes end as `Sequential.NetAt` says, the other pool unchanged; true exactly when no outcome lost a copy, and then each queue keeps what it had and gains one message for each slot of its mailbox; returns false before initialization without trying to initialize; never returns exactly when its thread holds the mutex |
| Mailboxes.Mailbox.SendSignal | include/msglib/Mailbox.h:159-171 | a mailbox in k slots of the label gets min(k, room) messages with that label, size 0 and no data at the end of its queue; no other queue changes; the result is true; never returns exactly when its thread holds the mutex |
| Mailboxes.Mailbox.Receive | include/msglib/Mailbox.h:180-182 | the oldest message leaves the queue; on an empty queue it never returns |
| Mailboxes.Mailbox.ReleaseMessage | include/msglib/Mailbox.h:104-112 | the block, from whichever pool, goes to the pool chosen from the 16-bit size, whose counter alone goes up; the counters stay exact if and only if that is its own pool; a signal changes nothing, and nothing happens before initialization |
| Mailboxes.MessageGuard.Destroy | include/msglib/Mailbox.h:235-239 | releases the message's block once, if it has one, to the pool the 16-bit size selects |
| Sequential.QueuesInClosedForm | include/msglib/Mailbox.h:129-150 | after k slots a queue has gained exactly the accepted copies for its mailbox, in slot order |
| Sequential.SignalGain | include/msglib/Mailbox.h:159-171 | a signal adds to a queue one message for each slot of its mailbox, as far as there is room |
| Sequential.MessageGain | include/msglib/Mailbox.h:122-152 | a broadcast of data that succeeds adds to a queue exactly one message for each slot of its mailbox |
| Sequential.QueuesBounded | include/msglib/detail/Queue.h:76-86 | a broadcast fills no queue beyond its capacity |
| Sequential.CounterInClosedForm | include/msglib/Mailbox.h:134-143 | the pool has lost one block for each copy accepted or refused, and never goes below zero |
| Sequential.BlocksInClosedForm | include/msglib/Mailbox.h:134-143 | old blocks are untouched, and the new ones are those taken for copies, each starting with the value sent |
| Sequential.CleanIff | include/msglib/Mailbox.h:122-152 | without interference SendMessage succeeds if and only if there was a block for every occupied slot, room in every queue for its slots, and no failed allocation |
| Agreement.UninterruptedBroadcast | include/msglib/Mailbox.h:122-171 | the step system's broadcast, without interference, ends in the state, outcomes and result that the class methods are proved to produce |
| Threads.PoliteKeepsExclusion | include/msglib/Mailbox.h:122-171 | a thread that enters a mutex only when it is free keeps all mutexes exclusive |
| Locks.KeepsExclusion | include/msglib/detail/Queue.h:76-142 | no step lets a second thread into the mailbox mutex, a queue mutex or the timer mutex |
| Monitor.ActsOnWhatItSaw | include/msglib/detail/Queue.h:76-142 | where the monitor invariant holds, and so in every reachable state, a pop finds an element, an append finds room and a refusal finds the queue full, though none of them tests it |
| Payload.PutNeverFails | include/msglib/Mailbox.h:140-146 | `put` has room after every successful allocation: neither its failure nor the clean-up branch is ever reached |
| Invariant.StepKeepsInv | include/msglib/Mailbox.h:104-171 | every step of every thread keeps the whole invariant |
| Invariant.ReachableInv | include/msglib/Mailbox.h:104-171 | the invariant holds in every state of every interleaving |
| Delivery.OwnershipPartition | include/msglib/Mailbox.h:104-152 | the blocks in use are shared out, disjointly and completely, among sender, queues, clients, threads freeing them, and refused copies |
| Delivery.UniqueOwner | include/msglib/Mailbox.h:130-147 | no block is carried by two threads or queued in two places |
| Delivery.PoolCounterSafety | include/msglib/detail/BytePool.h:166-194 | `m_size` stays between 0 and the capacity, so do the blocks in use, and counter, blocks and operations in flight add up exactly |
| Misrouting.CountersSafeIff | include/msglib/Mailbox.h:104-128 | given two threads and a mailbox, the counters stay within their capacities in every reachable state if and only if `RoutesOk`; otherwise one message sent, received and released breaks them |
| Delivery.DecrementSafe | include/msglib/detail/BytePool.h:166-178 | between check and decrement the counter stays positive, though frees run without the mailbox mutex |
| Delivery.NothingElseLeaks | include/msglib/Mailbox.h:104-152 | at rest each counter is its capacity minus the refused copies of data that took their blocks from that pool, so both are back at capacity if and only if no queue ever refused one; the blocks in use are those of refused copies |
| LeakRun.LeakReachable | include/msglib/Mailbox.h:134-149 | with a mailbox of capacity one in two slots, a run that ends at rest with a counter short of its capacity |
| Leaks.SomeRefusedIff | include/msglib/Mailbox.h:134-149 | the counts of refused copies are zero if and only if no broadcast lost a copy of data to a full queue |
| Delivery.PayloadIntegrity | include/msglib/Mailbox.h:130-147 | every queued message, and every received one its client has not written to, carries its sender's label and bytes; `as<T>` yields them if and only if the size fits in 16 bits, and nothing for a signal |
| Delivery.ReleaseGoesHome | include/msglib/Mailbox.h:104-112 | every release under way returns its block to the pool it came from |
| Delivery.LogRefinement | include/msglib/Mailbox.h:129-150 | a mailbox's popped and queued entries are the broadcast log expanded by its slots, minus exactly the copies lost to a failed allocation or a full queue |
| Delivery.HistoryOrdered | include/msglib/Mailbox.h:122-171 | a mailbox's history is strictly increasing by broadcast and slot, even when pops happen in the middle of a broadcast |
| Delivery.TotalOrder | include/msglib/Mailbox.h:122-171 | two mailboxes agree on the order of any two broadcasts both accepted |
| Delivery.OneSlotOneCopy | include/msglib/detail/Receiver.h:37-45 | with one slot for the label a mailbox gets at most one copy of a broadcast |
| Delivery.SendResult | include/msglib/Mailbox.h:122-152 | SendMessage returned true if and only if every occupied slot got its own copy |
| Delivery.SignalResult | include/msglib/Mailbox.h:159-171 | SendSignal returned true |
| Linearization.QueueLinearizable | include/msglib/detail/Queue.h:44-142 | queue and popped values of any run are those of its calls carried out one by one by `EmplacedOn` and `PoppedFrom`, because what a call has tested still holds when it acts |
| Linearization.QueueFifo | include/msglib/detail/Queue.h:44-142 | in every run accepted values are the popped ones and then the queued ones, and the queue keeps to its capacity, though appending does not test it again |
| Linearization.AnswersMatch | include/msglib/detail/Queue.h:76-142 | every answer is that of the calls carried out one by one: emplace succeeds if and only if there is room, pop, popWait and tryPop if and only if there is an element |
| ReceiveCalls.CallEnds | include/msglib/detail/Queue.h:95-142 | in every run a completed call takes one element or none: pop always takes one, popWait comes back without one only after its time-out, and tryPop never waits |
| ReceiveCalls.WaitsOnlyForElements | include/msglib/detail/Queue.h:113-142 | a call goes to sleep only on an empty queue, tryPop never, and popWait not again after its time-out |
| Linearization.RefusedOnlyWhenFull | include/msglib/detail/Queue.h:76-86 | an emplace is refused only in a state whose queue is exactly full, and changes no queue |
| Linearization.SlotsLinearizable | include/msglib/detail/MailboxData.h:147-165 | in every run a label's slots are those of the registration calls one by one, and hold the bounded multiset of registrations |
| CallEffects.CallHappensOnce | include/msglib/Mailbox.h:80-171 | in every run a completed call of SendMessage, SendSignal, RegisterForLabel, UnregisterForLabel, startTimer or cancelTimer is carried out exactly once, in one critical section, with the arguments it was made with |
| CallEffects.BroadcastAnswered | include/msglib/Mailbox.h:122-171 | a broadcast that is not rejected returns with its own record, and the answer in it, at the end of the log |
| Progress.UnblockedMoves | include/msglib/Mailbox.h:122-171 | every thread inside a call that is neither asleep nor waiting for a held mutex can take a step |
| Progress.DeadlockFreedom | include/msglib/Mailbox.h:122-171 | a thread that cannot step is asleep in `pop` or `popWait`, or held up by at most three holders the last of which can step |
| Progress.NoLostWakeup | include/msglib/detail/Queue.h:76-142 | while a consumer sleeps, the queue is no longer than the consumers awake that have yet to test it or take from it plus a producer about to notify, and one of those can make progress whenever the queue is not empty |
| Wakeup.WakesOne | include/msglib/detail/Queue.h:76-86 | a step wakes one thread at most, and another thread than its own only by notifying one that waits for the same queue |
| Bounds.CallsAreBounded | include/msglib/Mailbox.h:104-171 | any call but `pop` and `popWait` takes a bounded number of its thread's own steps, whatever the others do |
| Bounds.MailboxMutexReleased | include/msglib/Mailbox.h:122-171 | the mailbox mutex is held for at most 14 + 10 * MAX_RECEIVERS of the holder's own steps |
| Bounds.TimerMutexReleased | include/msglib/detail/TimerManagerData.h:108-117 | the timer mutex is held for at most 16 + 10 * MAX_RECEIVERS of the holder's own steps, a whole broadcast included |
| Completion.CallsComplete | include/msglib/detail/Queue.h:76-142 | from every reachable state in which nobody else is inside a mutex a run of its own steps completes the call of any thread; pop needs an element for that, popWait does not |
| Guarantee.RunSecure | include/msglib/Mailbox.h:122-152 | no step of another thread takes blocks or queue room away from a broadcast under way |
| Guarantee.GuaranteedDelivery | include/msglib/Mailbox.h:122-152 | SendMessage returns true in every run that starts with a block for each occupied slot and room for each copy and has no failed allocation |
| TimerTable.StartKeepsTable | include/msglib/detail/TimerManagerData.h:194-203 | starting keeps table and live timers in step, the label has a timer afterwards, and a timer that is started is new, of the type asked for, and armed |
| TimerTable.CancelRemoves | include/msglib/detail/TimerManagerData.h:205-215 | cancelling destroys exactly the live timer of that label and leaves all other slots |
| TimerManager.TimerManagerData.StartTimer | include/msglib/detail/TimerManagerData.h:194-203 | succeeds exactly when the label is free, and then updates table and timers as `StartIn` says: the new timer is armed |
| TimerManager.TimerManagerData.CancelTimer | include/msglib/detail/TimerManagerData.h:205-215 | succeeds exactly when the label has a timer, and then updates table and timers as `CancelIn` says |
| TimerManager.Timer.TimerEvent | include/msglib/detail/TimerManagerData.h:239-244 | one signal; a one-shot removes exactly itself from the table, a periodic timer stays |
| TimerRuns.TableMatchesTimers | include/msglib/detail/TimerManagerData.h:194-215 | in every reachable state a slot holds a live timer of its label, and every live timer is in its label's slot |
| TimerRuns.LiveTimersRun | include/msglib/detail/TimerManagerData.h:36-47 | in every reachable state a live periodic timer is armed, and a live one-shot is in exactly one of three places: armed, expired and pending, or at hand in the handler |
| TimerRuns.FiredOneShotIsGone | include/msglib/detail/TimerManagerData.h:239-244 | when the handler leaves timerEvent for a one-shot, that timer is destroyed and its label can be started again |
| TimerLife.LiveTimerFires | include/msglib/detail/TimerManagerData.h:108-117 | from every reachable state with an idle handler and nobody else inside a mutex a run leads to one more SendSignal for a live timer, which returns true; a periodic timer is then still in the table, and the label of a one-shot is free |
| TimerLife.PeriodicFires | include/msglib/detail/TimerManagerData.h:36-47 | under the same conditions a live periodic timer signals n times in some run without being started again, for every n |
| TimerRuns.OneShotFiresOnce | include/msglib/detail/TimerManagerData.h:36-63 | one successful one-shot start leads to at most one SendSignal, counting one made for it after its destruction |
| TimerRuns.FiringCancelsItself | include/msglib/detail/TimerManagerData.h:239-244 | the nested cancel destroys exactly the timer that fired if that is still alive, and otherwise exactly the one started for the label since; all other slots stay, and the label can be started again |
| TimerRuns.SilentUntilRestart | include/msglib/detail/TimerManagerData.h:205-215 | while a label has no timer, and no expiry for it had been dequeued when that began, no signal is sent for it until it is started again |
| StaleTimers.LiveIffNotCancelled | include/msglib/detail/TimerManagerData.h:108-117 | while the handler waits for the mutex, the timer it dequeued is alive if and only if nobody cancelled its label |
| StaleTimers.StaleIff | include/msglib/detail/TimerManagerData.h:108-117 | in every run from the initial state `timerEvent` has been called for a destroyed timer if and only if some cancelTimer for its label came between dequeuing its expiry and taking the mutex for it |
| StaleTimers.NeverStale | include/msglib/detail/TimerManagerData.h:108-117 | that never happens while clients do not cancel timers |
| StaleTimers.SilentIff | include/msglib/detail/TimerManagerData.h:205-244 | with the timer mutex free and no signal under way, a label without a timer stays silent in all runs until restarted if and only if the handler has not already dequeued an expiry for it |
| StaleTimers.HandlerCanBeStale | include/msglib/detail/TimerManagerData.h:108-117 | a state reached from the initial one whose label has no timer and can still get a signal |
| StaleTimers.RestartedTimerLost | include/msglib/detail/TimerManagerData.h:205-244 | a state reached from the initial one in which the nested cancel for an old timer destroys a new timer of the label that has not fired |
| TimeConv.ConversionExact | include/msglib/detail/TimeConv.h:15-22 | seconds and nanoseconds add up to the duration truncated toward zero, with fewer than 10^9 nanoseconds and the duration's sign |
| TimeConv.NoOverflow | include/msglib/detail/TimeConv.h:15-22 | no intermediate result of a 64-bit count leaves 64 bits, for up to 10^9 ticks a second |
| TimeConv.ConvertsBack | include/msglib/detail/TimeConv.h:15-22 | when a tick is a whole number of nanoseconds the pair converts back to the count |
| TimeConv.Timeval2Timespec | include/msglib/detail/TimeConv.h:32-42 | same instant in nanoseconds, refused exactly from one million microseconds on, and then nothing is written; the nanoseconds fit in 64 bits if and only if `tv_usec` is at least -9223372036854775 |

## Left out

- The polymorphic memory resources and whether the bytes set aside for them are enough: they are an allocator that
  fails or returns an unused block.
- Operating-system calls, signal masks and thread start, join and shutdown: only expiry and dequeuing are steps.
- `TimerManager::StartTimer` and `msglib::Initialize`: they forward their arguments.
- Durations with a floating-point count or ticks longer than a second, and real time: a timer may expire at any moment.
- `tryPush` and `push`: their critical section is that of `emplace`.
- Destroying a registered mailbox, static destruction order, and exceptions thrown by a timer's construction or a
  queue's allocator.
- Initialization in the step system: it is a class method only.
- `TimerManagerData::Initialize`, which can be repeated at will; timers are not started before it.
- `pop`, `popWait` and their waiting between threads are in the step system; in the class layer a thread is alone.
- A null pointer dereferenced when creating the default pools in `allocateSmall` or `allocateLarge` fails.
- TimerManager.Timer.TimerEvent: records the signal instead of sending it; SendSignal has its own row.
- Agreement.UninterruptedBroadcast: covers a broadcast that no other thread's step interrupts; interleaved broadcasts are
  the subject of the `Delivery` and `Guarantee` rows.
- Examples, logging and tests.
