# CERTI: a model of its time management and of the federation-wide rounds

CERTI runs one RTIA process beside every federate and one RTIG in the middle. The RTIAs agree on logical
time by promises: a regulating federate promises, in a null message, not to send anything dated before its
requested time plus its lookahead; every RTIA keeps the last promise of every regulator in a clock set; the
least of the others' clocks (the LBTS) says how far a constrained federate may go. The RTIG relays promises
and events over first-in first-out streams, hands a joiner the clocks it holds, and conducts the
synchronization points, the save and restore rounds and the NULL PRIME minimum.

This project models those parts, in the build without `CERTI_USE_NULL_PRIME_MESSAGE_PROTOCOL`, and proves
properties of single calls, of all runs of one process, and of all runs of a whole federation.

## How it is laid out

The objects whose methods change them are classes, each proved against functions on a value:

| module | what it holds |
|---|---|
| `FederationTime`, `Messages` | time as a real or infinity; the messages |
| `Lbts` | the clock set and its minimum (class `ClockSet`) |
| `Queues` | command, receive-order and time-stamp-order lists (class `Lists`) and the stable sort they refine |
| `TimeState`, `TimeManagement` | the time state of one RTIA as a value and its services as functions; the class that computes them |
| `RtigState`, `Federation` | the same for the RTIG (classes `Federate` and `Federation`) |
| `World` | all RTIAs, the RTIG and the streams, with one step relation |
| `CausalSafety`, `WorldInvariant`, `Guarantees` | what one RTIA keeps, the invariant of the whole, what follows for every run |
| `Replication`, `Promises`, `GridRuns` | delayed copies of the clocks; honest promises; zero lookahead on a grid of dates |
| `Progress`, `Liveness` | freedom from deadlock, the number of null messages, and that they lead somewhere |
| `TimeLaws`, `Deliveries` | one RTIA alone: draining to the grant, null dates, and where the code does not keep its promises; what a tick lets out, and when |
| `EventFlow`, `ConstraintCopy` | an update or interaction from its sender to each subscriber; the RTIG's flag of who is constrained |
| `Communications`, `JoinHandOff` | the waiting list, and the join built on it |
| `RtigRuns`, `SyncBarrier`, `Tellings`, `SaveRounds`, `NerxRounds` | runs of the RTIG: who owes a point, who is told what, save and restore rounds, the NULL PRIME minimum |
| `SaveOrder`, `SaveOvertaking`, `CalmSaves`, `StuckSaves`, `OvertakingRuns` | save rounds from end to end: what never overtakes, what can and exactly when, how to avoid it, when a save can end, and two runs |
| `TickSession` | a tick as a session of callbacks |
| `Getopt`, `OptionLaws` | the permuting argument scanner of the RTIA's command line; what each element yields |

The central invariant (`WorldInvariant.Invariant`) says, for each federate, that what it has on its way to
the RTIG honours what it has promised and that its promise covers all it may still send; and, for each pair,
that what is on its way from the RTIG leads the receiver's clock through honest messages to the RTIG's. Each
half needs the other: a sender's next-event promise is honest only because its own LBTS was.

## What the theorems about a federation assume

The code does not enforce the following; `World.Disciplined`, `World.RegulatorInTime` and `World.Allowed`
state it. The lemmas named say what goes wrong without it, and exactly when.

- While a federate regulates, its lookahead is raised at most, and not after an advance with zero lookahead
  (`TimeLaws.LookaheadBreaksPromise`, `TimeLaws.LookaheadBreaksLastPromise`), and it is never exactly `epsilon2`, which setLookahead refuses but setTimeRegulating accepts
  (`TimeLaws.RegulatingAcceptsEpsilon`, `TimeLaws.GrantBreaksPromise`).
- With zero lookahead, events and available advances keep a distance of `epsilon2` from the date reached
  (`TimeLaws.GrantBreaksPromise`, `TimeLaws.AvailableBreaksPromise`). When all dates are multiples of a step of at
  least `epsilon2` this is not assumed but proved, for whole runs (`GridRuns`). After an advance with zero
  lookahead, regulation is enabled again only with zero lookahead (`TimeLaws.StaleKindBreaksRegulation`).
- Senders of dated events regulate (`TimeLaws.UnregulatedSendsIntoPast`).
- A federate becomes constrained while its time is at most its LBTS (`TimeLaws.LateConstraintMissesEvents`), and
  stays constrained.
- A new regulator's clock lies beyond what a constrained receiver has reached or asked for
  (`TimeLaws.LateRegulatorSendsIntoPast`). The RTIG says it does not check this (RTIG/Federation.hh:194-199).
- The next event request "available" is made only when it would be accepted, and then has no effect: its
  guard is the opposite of the other three (`TimeLaws.NeraActsOnlyWhenRefused`, `TimeLaws.NeraMovesTimeBack`).
- The kind of the last grant has no initial value in RTIA/TimeManagement.hh:235; the model starts with the
  kind that TAR and NER leave.
- Deadlock freedom, and the bound on null messages, are for runs in which nobody stops regulating: a promise
  made before is otherwise remembered and withholds later ones (`TimeLaws.OldPromiseWithholdsNew`).
- Streams are reliable and first-in first-out. Time is exact: comparisons do not have the rounding tolerance
  of libCERTI/FedTime.cc.

## Where the code and its promises part

The lemmas give the condition, and the conditions are ones that can be looked up before the call.

- nextEventRequestAvailable takes effect exactly when it asks for the past or another request is pending, which is
  when it refuses (`TimeLaws.NeraActsOnlyWhenRefused`). Ticks then take the federate back in time exactly when it
  asked for the past (`TimeLaws.NeraMovesTimeBack`), and a promise is broken exactly when the date asked for plus
  the lookahead falls short of it (`TimeLaws.NeraBreaksPromise`).
- setTimeRegulating accepts `epsilon2` as lookahead, and the grant then resets it to zero.
- setLookahead after a zero-lookahead advance promises more than testValidTime then holds the federate to
  (`TimeLaws.LookaheadBreaksLastPromise`).
- A synchronization point that a member registers, under a new name, for an empty set stays pending and nobody can
  achieve it (`SyncBarrier.NobodyStrandsPoint`, `SyncBarrier.StrandedStays`).
- The requester of a synchronization point for a nonempty set owes the point but is never told of it: the announcement
  goes to the set alone, and a set that names the requester is refused (`Tellings.RequesterOwesUntold`). Nor are the
  members left owing by a registration that fails midway. Everybody else who owes a point is told, once
  (`Tellings.OwersWereTold`).
- A stop request outside a session is acknowledged (`TickSession.AcksMatchSessions` counts it).
- A save or restore report of a member while no round is on is announced as an outcome
  (`SaveRounds.StrayReportIsAnnounced`, and `SaveRounds.OneOutcomePerRound` counts it).
- A save that began may never end: it can end exactly while no federate is stuck (`StuckSaves.SaveCanEndIff`). A
  federate gets stuck exactly when it is told an older end after the start of the save and before its report is let
  through (`StuckSaves.StuckIffMissed`), so that start has overtaken that end (`StuckSaves.StuckWasOvertaken`). Two
  federates are enough for it (`OvertakingRuns.StartMayOvertakeEnd`). It does not happen when each save is asked for
  after all have been told of every end before (`CalmSaves.CalmAsksKeepOrder`, `StuckSaves.CalmAsksNeverStick`).
- Of two starts or ends, a federate is told the later one first exactly when its RTIA took it while the earlier one
  waited in its command list (`SaveOvertaking.LaterToldFirstIffQueuedOver`). An end overtakes its own start only when
  a federate reports twice (`SaveOrder.EndNeverOvertakesStart`, `OvertakingRuns.EndMayOvertakeStart`).
- The anonymous update of an empty clock set (libCERTI/LBTS.cc:119-138) reads a clock that is not there.
- The comment at RTIG/Federation.cc:2147 asks for more than two federates with a pending NULL PRIME; the code
  asks for two.

## Model

| member | source | states |
|---|---|---|
| Lbts.ClockSet.Compute | libCERTI/LBTS.cc:47-62 | the loop leaves the greatest lower bound of all clocks but one's own, infinity when there is none |
| Lbts.ClockSet.Insert | libCERTI/LBTS.cc:85-95 | a clock already present is refused and nothing changes; otherwise it is added and the bound is again the least |
| Lbts.ClockSet.Update | libCERTI/LBTS.cc:97-141 | a clock never moves back, an unknown federate is refused, federate 0 stands for all clocks; the bound is again the least |
| Lbts.ClockSet.UpdateAll | libCERTI/LBTS.cc:119-138 | the loop of the anonymous update raises every clock to the date, and lowers none |
| Lbts.ClockSet.Remove | libCERTI/LBTS.cc:144-154 | the clock is gone, an unknown federate is refused, the bound is again the least |
| Lbts.LeastIsUnique | libCERTI/LBTS.cc:47-62 | being a lower bound that is reached or infinite fixes the LBTS |
| Lbts.RaisedToDate | libCERTI/LBTS.cc:119-138 | an anonymous null message raises to its date each clock below it, and the LBTS |
| Queues.Lists.InsertFifo | RTIA/Files.cc:31-34 | the message goes last |
| Queues.Lists.GiveFifo | RTIA/Files.cc:36-53 | the first message is given; `more` iff another remains |
| Queues.Lists.InsertTso | RTIA/Files.cc:55-73 | the loop puts the event behind all of its date or earlier, everything else in place |
| Queues.Lists.GiveTso | RTIA/Files.cc:75-98 | the first event iff it is dated at most the bound; `more` iff a second call would give another |
| Queues.Lists.NextTsoDate | RTIA/Files.cc:100-113 | the date of the first event, if any |
| Queues.Lists.InsertBeginCommand | RTIA/Files.cc:115-118 | the command goes first |
| Queues.Lists.InsertLastCommand | RTIA/Files.cc:120-123 | the command goes last |
| Queues.Lists.GiveCommand | RTIA/Files.cc:125-142 | the first command is given; `more` iff another remains |
| Queues.StableSortIsUnique | RTIA/Files.cc:55-73 | ascending, with the events of each date in order of arrival, fixes the whole list |
| Queues.ListRefinesStableSort | RTIA/Files.cc:55-98 | after any interleaving of insertions and bounded removals the list is the stable date-sort of what was inserted and not removed |
| Queues.GivesTheNext | RTIA/Files.cc:75-98 | after any such run a removal gives the oldest arrival of the least outstanding date, and nothing iff all are dated later |
| Queues.DrainGivesAllUpTo | RTIA/Files.cc:75-98 | repeated removal yields a prefix of the list holding exactly the events dated up to the bound |
| TimeManagement.TimeManager.SendNullMessage | RTIA/TimeManagement.cc:998-1019 | a null message dated time plus lookahead goes out exactly if it exceeds the last one, which it then replaces |
| TimeManagement.TimeManager.TimeAdvanceRequest | RTIA/TimeManagement.cc:62-108 | the whole new state, message and error of a TAR, with the zero lookahead replaced before the promise |
| TimeManagement.TimeManager.TimeAdvanceRequestAvailable | RTIA/TimeManagement.cc:110-147 | the same for a TARA, which leaves the lookahead alone |
| TimeManagement.TimeManager.NextEventRequest | RTIA/TimeManagement.cc:149-190 | the same for an NER, which promises nothing yet |
| TimeManagement.TimeManager.NextEventRequestAvailable | RTIA/TimeManagement.cc:192-224 | the same for an NERA, under the guard the code has |
| TimeManagement.TimeManager.SetLookahead | RTIA/TimeManagement.cc:315-346 | negative values and epsilon2 are refused; otherwise the lookahead and, for a regulator, a promise |
| TimeManagement.TimeManager.SetTimeConstrained | RTIA/TimeManagement.cc:348-385 | refused when nothing would change or while an advance is pending; else set and reported |
| TimeManagement.TimeManager.SetTimeRegulating | RTIA/TimeManagement.cc:387-437 | the same, with the lookahead and the regulation date |
| TimeManagement.TimeManager.TestValidTime | RTIA/TimeManagement.cc:286-313 | which dates pass: from goal plus lookahead on, or strictly beyond the goal after a zero-lookahead request |
| TimeManagement.TimeManager.RequestMinNextEventTime | RTIA/TimeManagement.cc:461-479 | the lesser of the LBTS and the first event's date |
| TimeManagement.TimeManager.TimeAdvanceGrant | RTIA/TimeManagement.cc:711-729 | the grant is told, the time set, a stand-in lookahead reset, the tick state moved on |
| TimeManagement.TimeManager.TimeAdvance | RTIA/TimeManagement.cc:529-594 | one event up to the lesser of LBTS and goal, else the grant if the LBTS allows it, else nothing |
| TimeManagement.TimeManager.NextEventAdvance | RTIA/TimeManagement.cc:596-709 | promise, lowered target and one event or the grant if the LBTS allows it; else the LBTS is promised |
| TimeManagement.TimeManager.AdvanceTime | RTIA/TimeManagement.cc:509-527 | the pending request decides between the two |
| TimeManagement.TimeManager.Tick | RTIA/TimeManagement.cc:226-284 | the new state, what was sent and told, and whether more is waiting, equal those of the function that the laws of `Deliveries` and `TimeLaws` pin |
| TimeManagement.TimeManager.ProcessNetworkMessage | RTIA/RTIA_network.cc:47-408 | each message that concerns time or the lists, the anonymous null message included, changes the clocks or goes to the one list, and the end of it, that the switch chooses |
| Deliveries.ReceiveOrderIsOpenIff | RTIA/TimeManagement.cc:241 | with no command waiting, a tick tells the first receive-order message iff delivery is asynchronous, an advance is pending, or the federate is not constrained |
| Deliveries.TicksTellBothLists | RTIA/TimeManagement.cc:226-257 | with asynchronous delivery as many ticks as both lists hold tell all of both in order, whatever is pending |
| Deliveries.TicksTellOnlyCommands | RTIA/TimeManagement.cc:226-257 | without it, a constrained idle federate is told its commands and nothing else, however often it ticks |
| Deliveries.DeliveredIff | RTIA/TimeManagement.cc:529-652 | exactly which event a tick delivers, and when, in terms of lists, LBTS, request and dates |
| Deliveries.GrantedIff | RTIA/TimeManagement.cc:529-709 | exactly when a tick grants, and which date |
| Deliveries.MoreIff | RTIA/TimeManagement.cc:226-284 | after a command or message a tick says more iff its list holds another; after an event iff the next tick would deliver another; else not |
| Deliveries.NothingIsLost | RTIA/Files.cc:31-142 | whatever a federate does and whatever comes in, each message for it has been told once or still waits in one list |
| Deliveries.ReceiveHolds | RTIA/RTIA_network.cc:47-408 | a message for the federate enters one list once, and no other message does |
| Deliveries.AnonymousNullRaises | RTIA/RTIA_network.cc:62-72 | an anonymous null message raises the clocks and the LBTS below its date to it, and does nothing else |
| Deliveries.AcceptedIff | RTIA/TimeManagement.cc:62-190 | a request to advance is accepted iff it is not for the past and none is pending; then it pends with its date; refused it changes nothing |
| Deliveries.SwitchedIff | RTIA/TimeManagement.cc:315-437 | exactly when the lookahead and the switches are accepted, and what they then set and send; refused they change nothing |
| Deliveries.MinNextEventTimeIsGreatest | RTIA/TimeManagement.cc:461-479 | the minimum next event time is the greatest date below both the LBTS and the first event |
| CausalSafety.TickKeepsWord | RTIA/TimeManagement.cc:509-709 | a tick of a consistent RTIA sends only what honours any promise covering it, and leaves its new promise covering all it may still send |
| CausalSafety.LocalKeepsWord | RTIA/TimeManagement.cc:62-437 | so does every request, send and switch of a disciplined federate, raising the lookahead included; on a grid of dates the discipline asks no distance of its events |
| WorldInvariant.ReceiveIsCovered | RTIA/RTIA_network.cc:62-84 | a message that fits the clocks is taken without exception and cannot lower what the receiver has promised |
| WorldInvariant.ProcessForwards | RTIG/Federation.cc:466-572 | the RTIG refuses no fitting message and passes it on so that every receiver's view follows the RTIG's clock |
| WorldInvariant.StepKeepsInvariant | RTIG/Federation.cc:505-543 | every step of every process keeps the invariant of the whole federation |
| WorldInvariant.ReachableInvariant | RTIG/Federation.cc:505-543 | it holds in every reachable state |
| Guarantees.CausalArrival | RTIA/RTIA_network.cc:152-231 | in every reachable state the next event to arrive is dated at least its sender's clock, the receiver's LBTS and its time; no message makes an RTIA throw |
| Guarantees.NothingIsRefused | RTIG/MessageProcessor.cc:391-474 | in every reachable state the RTIG accepts the next promise or change of regulation |
| Guarantees.ClockBoundsFlight | RTIA/TimeManagement.cc:998-1019 | the clock one RTIA holds for another bounds every event of that federate in flight and its promise |
| Guarantees.ClockBoundsTheFuture | RTIA/TimeManagement.cc:596-709 | and every event it sends in any continuation in which it does not stop regulating |
| Guarantees.GrantLeavesNothingBehind | RTIA/TimeManagement.cc:226-276 | at a grant, command and receive-order lists are empty and every event up to the date has been delivered |
| Guarantees.NothingLateAfterGrant | RTIA/TimeManagement.cc:529-709 | in any continuation no event dated up to the granted date arrives (before it, after a TARA) |
| Guarantees.GrantsAscend | RTIA/TimeManagement.cc:711-729 | over any run the granted dates of a federate never decrease, constrained or not |
| Guarantees.DeliveredInOrder | RTIA/TimeManagement.cc:546-652 | over any run, whatever mix of requests, events are delivered to a federate in time stamp order |
| Guarantees.MinNextEventTimeBounds | RTIA/TimeManagement.cc:461-479 | the minimum next event time bounds every later delivery, if no new regulator starts below it |
| EventFlow.EveryEventArrivesOnce | RTIG/MessageProcessor.cc:862-963 | over any run of the federation, what one federate sends and another subscribes to when the RTIG takes it has been told to that one once, or is in one place on its way |
| EventFlow.DataForwards | RTIG/Federation.cc:1493-1600 | the RTIG sends it once to each subscriber but the sender |
| ConstraintCopy.ConstraintIsCopied | RTIG/MessageProcessor.cc:422-447 | in every reachable state, what is on its way to the RTIG brings its flag of a federate's constraint to that of the RTIA |
| Replication.ClocksAreADelayedCopy | RTIG/Federation.cc:466-572 | in every run each RTIA's clocks, its own aside, are the RTIG's at some earlier point, and its stream leads through later and later points |
| Replication.DrainedClocksAreCurrent | RTIA/RTIA_network.cc:62-84 | with an empty stream they are the RTIG's present clocks |
| Promises.PromisesAreHonest | RTIA/TimeManagement.cc:286-313 | in every run all a federate sends is honest: null dates strictly increase, events are dated at least the regulation date and every earlier null message |
| Promises.EventKeepsEarlierPromise | RTIA/ObjectManagement.cc:123-289 | an event sent after a promise, in the same stretch of regulation, is dated at least the promise |
| Progress.NoDeadlock | RTIA/TimeManagement.cc:661-689 | when all regulate, are constrained and wait with nothing in flight, a tick of the federate that promised least tells it something or raises its promise by at least its lookahead |
| Progress.RoundRaises | RTIA/TimeManagement.cc:661-689 | a round that tells nothing raises that promise by at least the lookahead and leaves all others |
| Progress.RunIsTimely | RTIA/TimeManagement.cc:91-103 | in every run in which nobody stops regulating, promises are as high as the pending requests call for |
| Progress.NullMessagesAreBounded | RTIA/TimeManagement.cc:632-689 | the rounds of null messages that start below a date are at most the sum over federates of the distance measured in lookaheads |
| Liveness.SomeonePromisedLeast | RTIA/TimeManagement.cc:661-689 | whenever all wait, one of them promised least, unless all promised infinity |
| Liveness.RoundExists | RTIG/Federation.cc:505-543 | if its tick tells it nothing, the null message can be relayed and read until nothing is in flight |
| Liveness.WaitingEnds | RTIA/TimeManagement.cc:529-709 | with one finite request pending, such rounds, within the bound, lead to a tick that tells a federate something |
| TimeLaws.TickDoesOneThing | RTIA/TimeManagement.cc:226-284 | a tick removes and tells exactly one queued message, or grants, or changes no list, time or request |
| TimeLaws.TicksDrainToGrant | RTIA/TimeManagement.cc:226-284 | with the LBTS beyond the goal and no arrivals, the ticks tell exactly commands, messages and due events in order and then the grant, one each; NER's lowered target included |
| TimeLaws.NullDatesAscend | RTIA/TimeManagement.cc:998-1019 | whatever a federate does and receives, the dates of its null messages strictly increase |
| TimeLaws.EarliestSend | RTIA/TimeManagement.cc:286-313 | some date below a bound passes iff goal plus lookahead, or after a zero-lookahead request the goal itself, lies below it |
| TimeLaws.LookaheadBreaksPromise | RTIA/TimeManagement.cc:315-346 | a new lookahead lets an event through below a promise iff goal plus lookahead falls short of it, or after a zero-lookahead request the goal does |
| TimeLaws.LookaheadBreaksLastPromise | RTIA/TimeManagement.cc:315-346 | the same for the last null message sent, the one of this call included |
| TimeLaws.RequestPromises | RTIA/TimeManagement.cc:91-103 | an accepted TAR promises its date plus the lookahead, epsilon2 standing in for zero |
| TimeLaws.GrantBreaksPromise | RTIA/TimeManagement.cc:711-729 | any grant lets an event through below its date plus the lookahead it was asked with iff that lookahead stood in for zero or is epsilon2 |
| TimeLaws.RegulatingAcceptsEpsilon | RTIA/TimeManagement.cc:387-437 | enabling regulation accepts the value that setLookahead refuses |
| GridRuns.GridKeepsPromise | RTIA/TimeManagement.cc:286-313 | on a grid of step at least epsilon2, exactly the events at that distance from the goal pass after a zero-lookahead request |
| GridRuns.GridRunsAreRuns | RTIA/TimeManagement.cc:62-313 | every run whose requested and event dates lie on the grid meets the conditions of the other theorems, the distance included |
| GridRuns.PromisesAreHonestOnGrid | RTIA/TimeManagement.cc:286-313 | in every such run promises are honest and null messages ascend, with zero lookahead too |
| GridRuns.CausalArrivalOnGrid | RTIA/RTIA_network.cc:152-231 | after every such run the next event to arrive is dated at least its sender's clock, the receiver's LBTS and its time |
| TimeLaws.StaleKindBreaksRegulation | RTIA/TimeManagement.cc:286-313 | events may be sent below the regulation date iff the last request left the zero-lookahead kind and the new lookahead is positive |
| TimeLaws.AvailableBreaksPromise | RTIA/TimeManagement.cc:110-147 | a TARA with zero lookahead gives back part of an epsilon2 promise iff it asks for less than that |
| TimeLaws.NeraActsOnlyWhenRefused | RTIA/TimeManagement.cc:192-217 | an NERA becomes pending iff it asks for the past or another request is pending, and those are the cases refused |
| TimeLaws.NeraBreaksPromise | RTIA/TimeManagement.cc:192-224 | a refused NERA lets an event through below a promise iff its date plus the lookahead falls short of it |
| TimeLaws.PastIsGrantedNext | RTIA/TimeManagement.cc:192-224 | refused for lying in the past, it is granted there once what waits has been told |
| TimeLaws.NeraMovesTimeBack | RTIA/TimeManagement.cc:192-224 | ticks after an NERA take the federate back in time iff it asked for the past, whatever was pending |
| TimeLaws.OldPromiseWithholdsNew | RTIA/TimeManagement.cc:998-1019 | after regulation off and on, with any lookahead, a promise is withheld iff an older one is not below it |
| TimeLaws.UnregulatedSendsIntoPast | RTIA/ObjectManagement.cc:123-150 | an event of any sender is queued below the receiver's time iff the earliest date the sender may use lies there |
| TimeLaws.LateRegulatorSendsIntoPast | RTIG/Federation.cc:466-503 | honest events of a new regulator may come below the receiver's time, or within its goal, iff the clock it starts with does |
| TimeLaws.LateConstraintMissesEvents | RTIA/TimeManagement.cc:348-385 | honest events may come below the time of a federate that becomes constrained iff its LBTS lies below it |
| Communications.Link.SearchMessage | RTIA/Communications.cc:294-312 | the first match is taken out of the waiting list, all else stays in order; none iff nothing matches |
| Communications.Link.ReceiveMatch | RTIA/Communications.cc:60-78 | all received before the first match is set aside in order |
| Communications.Link.WaitMessage | RTIA/Communications.cc:51-81 | the earliest undispatched match of everything received or still to come is returned, and only it is removed; a wait for one's own event reply returns that, one for anybody the first of its kind |
| Communications.Link.ReadMessage | RTIA/Communications.cc:217-228 | the oldest undispatched message, and only it, is dispatched |
| Communications.WaitIsOrderly | RTIA/Communications.cc:51-81 | taking a match out of turn keeps every message in exactly one place and the dispatched ones in arrival order |
| Communications.ReadIsOrderly | RTIA/Communications.cc:217-228 | so does dispatching |
| Communications.InterleavingConserves | RTIA/Communications.cc:51-228 | after any interleaving of waits and reads every message has been dispatched, or returned to a wait, or is still to come, once, and dispatched messages kept their order |
| Communications.WaitTakesEarliest | RTIA/Communications.cc:51-81 | after any interleaving a wait returns the earliest match not returned before, and nothing iff there is none |
| Communications.WantedIff | RTIA/Communications.cc:302-304 | kind by kind, which messages a wait takes: of any federate when it names none, else of the one it names |
| Communications.OwnReplyIff | RTIA/Communications.cc:60-78 | a wait for the reply to one's own event finds it iff it is in the stream, and takes its first |
| Communications.OwnReplyReturned | RTIA/Communications.cc:51-81 | after any interleaving it returns the earliest such reply not returned before, wherever the replies of others stand, and nothing iff there is none |
| Communications.WaitForOwnReply | RTIA/ObjectManagement.cc:142 | the reply returns, and the replies of other federates before it stay in order |
| JoinHandOff.JoinFederationExecution | RTIA/FederationManagement.cc:241-263 | the joiner's clock set equals the clocks listed before its reply; the rest of the stream is neither lost nor reordered |
| JoinHandOff.HandOff | RTIG/Federation.cc:296-373 | RTIG and RTIA together: the joiner starts from exactly the RTIG's clocks at its join, whatever follows the reply |
| Federation.Federate.SetRegulator | RTIG/Federate.cc:93-100 | refused iff nothing would change |
| Federation.Federate.SetLastNerxValue | RTIG/Federate.cc:117-121 | the value is stored and the federate is asking |
| Federation.Federate.AddSynchronizationLabel | RTIG/Federate.cc:239-249 | refused iff the label is held |
| Federation.Federate.RemoveSynchronizationLabel | RTIG/Federate.cc:251-257 | refused iff the label is not held |
| Federation.Federation.Add | RTIG/Federation.cc:266-373 | the joiner owes every pending point and is sent every clock once, before its reply, and every point after |
| Federation.Federation.AddRegulator | RTIG/Federation.cc:466-503 | flag and clock are set together and the others and the requester told, or nothing changes |
| Federation.Federation.UpdateRegulator | RTIG/Federation.cc:505-543 | the clock advances and every other federate is told, or nothing changes |
| Federation.Federation.RemoveRegulator | RTIG/Federation.cc:545-572 | flag and clock go together and the others are told |
| Federation.Federation.SetConstrained | RTIG/Federation.cc:574-597 | the flag is set and the federate told, refused iff nothing would change |
| Federation.Federation.RegisterSynchronization | RTIG/Federation.cc:624-648 | a new point becomes pending, owed by and announced to every member, or nothing changes; what each is told is pinned by `Tellings` |
| Federation.Federation.RegisterSynchronizationSet | RTIG/Federation.cc:650-681 | the form for a set, with the labels it leaves behind when it fails midway |
| Federation.Federation.UnregisterSynchronization | RTIG/Federation.cc:683-728 | the label goes; the point goes and is announced iff nobody holds it any more |
| Federation.Federation.RequestFederationSave | RTIG/Federation.cc:836-878 | every member is marked, the status reset and all told; refused during a save |
| Federation.Federation.FederateSaveStatus | RTIG/Federation.cc:887-943 | the mark goes, a failure is remembered, and the last report ends the round with its outcome |
| Federation.Federation.RequestFederationRestore | RTIG/Federation.cc:945-1029 | the same for a restore, with confirmation, beginning and one initiation for each member |
| Federation.Federation.FederateRestoreStatus | RTIG/Federation.cc:1031-1072 | the same for its reports |
| Federation.Federation.ComputeMinNerx | RTIG/Federation.cc:2117-2154 | the loop over the regulators computes the minimum of values asked for and clocks, zero unless two ask |
| Federation.Federation.UpdateLastNerx | RTIG/Federation.cc:2088-2115 | true iff the minimum rises; then it is kept and nobody asks any more |
| Federation.Federation.ReceiveNullPrime | RTIG/MessageProcessor.cc:476-498 | an anonymous null message with the new minimum goes to all iff it rises |
| SyncBarrier.PendingExactlyWhileHeld | RTIG/Federation.cc:624-728 | over any run without registrations for nobody, a point is pending iff some federate, late joiners included, owes it |
| SyncBarrier.NobodyStrandsPoint | RTIG/Federation.cc:650-681 | a registration for nobody breaks this iff it comes from a member and names a new, nonempty point, which is then stranded |
| SyncBarrier.StrandedStays | RTIG/Federation.cc:683-728 | the point then stays pending over any run without joins |
| SyncBarrier.AnnouncedByLastHolder | RTIG/Federation.cc:683-728 | FEDERATION_SYNCHRONIZED goes out, to every member, iff the last holder achieves the point |
| SyncBarrier.SynchronizedOncePerRegistration | RTIG/Federation.cc:624-728 | over any run it goes out once for each registration, the pending one excepted |
| SyncBarrier.EachRegistrationAnnounced | RTIG/Federation.cc:624-728 | the same from any state on |
| SyncBarrier.SetFormSucceeds | RTIG/Federation.cc:650-681 | exactly which sets are accepted |
| Tellings.RegisterTells | RTIG/MessageProcessor.cc:500-556 | a registration for all that is accepted tells every member of the point once and then the requester that it was accepted; a refused one tells only the requester so |
| Tellings.RegisterForTells | RTIG/Federation.cc:758-787 | for a set, the members of the set and the requester in the same way |
| Tellings.AnnouncedExactly | RTIG/Federation.cc:730-787 | which federate is told of a point, with which tag, by each service, a join included; nobody is told otherwise |
| Tellings.OwersWereTold | RTIG/Federation.cc:313-328 | over any run, whoever owes a point, late joiners included, was told of it exactly once since it was registered, with its tag; the requester of a set, and those left owing by a set that failed, never |
| Tellings.NobodyUntold | RTIG/Federation.cc:730-756 | when the point is never registered for a set, nobody is left untold |
| Tellings.RequesterOwesUntold | RTIG/Federation.cc:667-673 | of an accepted set, exactly the requester, unless the set is empty, owes the point and is not told of it |
| Tellings.RegisterMakesAllOwe | RTIG/Federation.cc:624-648 | an accepted registration for all makes the point pending with its tag and owed by exactly the members |
| Tellings.JoinerOwesAll | RTIG/Federation.cc:313-328 | a joiner owes exactly the pending points |
| Tellings.OwesUntilAchieved | RTIG/Federation.cc:683-728 | over any run, whoever owes a point owes it until it achieves it |
| Tellings.ConfirmedAsRegistered | RTIG/MessageProcessor.cc:514-556 | over any run, a federate is told as often that the point was registered as a registration of its own was accepted |
| Tellings.ChangeTells | RTIG/Federation.cc:466-597 | which federate is told of a promise and of a change of regulation or constraint, and in which order |
| Tellings.EnabledIffAccepted | RTIG/Federation.cc:466-597 | over all services, a federate is told that it regulates or is constrained iff its own request is accepted |
| Tellings.ConstraintTakes | RTIG/Federation.cc:574-597 | a change of constraint takes effect on the one federate |
| Tellings.RegulationTakes | RTIG/Federation.cc:466-503 | so does enabling regulation, on its flag and its clock |
| Tellings.RegulationEnds | RTIG/Federation.cc:545-572 | and disabling it |
| Tellings.RoundTells | RTIG/Federation.cc:836-1029 | which federate is told to save or restore, under which title, and in which order |
| SaveRounds.RoundsInStep | RTIG/Federation.cc:836-1072 | over any run a round is on iff some member has yet to report, and the status is reset between rounds |
| SaveRounds.OutcomeWithLastReport | RTIG/Federation.cc:887-943 | a service announces an outcome, to every member, iff it is the last report or a member's report outside a round; exactly the last report ends the round |
| SaveRounds.OneOutcomePerRound | RTIG/Federation.cc:836-1072 | over any run there is one outcome for each round begun, the present one excepted, and one for each report outside a round |
| SaveRounds.RoundOutcome | RTIG/Federation.cc:887-1072 | the outcome of a whole round is positive iff all its reports were, repeated ones included, and the data was written; all flags return |
| SaveRounds.EachReportsOnce | RTIG/Federation.cc:887-943 | within a round a member's mark is gone iff it has reported, and that was once if members report only when they owe it |
| SaveRounds.StrayReportIsAnnounced | RTIG/Federation.cc:887-943 | an outcome that ends no round is announced iff a member reports while no round is on |
| NerxRounds.IssueIsMinimum | RTIG/Federation.cc:2088-2154 | an anonymous null message is issued iff the minimum strictly rises; it carries the minimum, at least two ask, and afterwards nobody does |
| NerxRounds.MinNeverDecreases | RTIG/Federation.cc:2088-2115 | over any run the minimum never decreases |
| NerxRounds.NextIssueNeedsTwo | RTIG/MessageProcessor.cc:476-498 | between two issues two different regulators have sent fresh null prime messages |
| NerxRounds.MinimumIssuedIff | RTIG/Federation.cc:2088-2154 | over any run, a null prime message brings on an anonymous null message of a date iff two regulators have asked since the last one and the date is the least of what all regulators asked for last, or else of their clocks, and above the last minimum |
| SaveOrder.QueuedAsReceived | RTIA/RTIA_network.cc:299-312 | the stations of the end-to-end model queue commands as the RTIA does |
| SaveOrder.FirstAsTicked | RTIA/Files.cc:125-142 | and deliver them as its tick does |
| SaveOrder.EndNeverOvertakesStart | RTIA/FederationManagement.cc:542-599 | in every run in which federates report once, over any number of rounds, each end is delivered after its start, and none is even sent before |
| SaveOvertaking.LaterToldFirstIffQueuedOver | RTIA/Files.cc:115-118 | over any run, of any two starts or ends a federate is told the later one first iff its RTIA queued it while the earlier one waited in its command list |
| SaveOvertaking.StartOvertakesIffQueuedOver | RTIA/RTIA_network.cc:299-312 | the same for a start and the end of an earlier round |
| SaveOvertaking.EndOvertakesIffQueuedOver | RTIA/RTIA_network.cc:299-312 | the same for an end and its own start, whatever the federates report |
| CalmSaves.CalmAsksKeepOrder | RTIA/RTIA_federate.cc:86-93 | in every run in which each request the RTIA lets through is made when all have been told of every end so far, no start overtakes an end |
| StuckSaves.StuckIffMissed | RTIA/FederationManagement.cc:542-599 | over any run a federate is stuck at the end iff it was, or was told an older end after the start of the present save and before its report was let through |
| StuckSaves.SaveCanEndIff | RTIG/Federation.cc:887-943 | in every state of every run, the save in progress can end iff no federate is stuck |
| StuckSaves.StuckWasOvertaken | RTIA/Files.cc:115-118 | a stuck federate was told the start of the present save before the end of an earlier one |
| StuckSaves.CalmAsksNeverStick | RTIA/RTIA_federate.cc:86-93 | when saves are asked for calmly no federate is ever stuck |
| StuckSaves.CalmSavesCanEnd | RTIG/Federation.cc:887-943 | and every save can end |
| OvertakingRuns.StartMayOvertakeEnd | RTIA/Files.cc:115-118 | a run of any two federates, one told of the end and asking again, in which the other gets stuck |
| OvertakingRuns.EndMayOvertakeStart | RTIA/FederationManagement.cc:542-573 | a run of any two federates in which one reports twice and is told the end of the next save before its start |
| StuckSaves.StuckForever | RTIA/FederationManagement.cc:542-548 | while a federate is stuck the save does not end, whatever the federates do |
| TickSession.Agent.ProcessOngoingTick | RTIA/RTIA_federate.cc:1246-1310 | at most two passes and one callback, never left in TICK_NEXT, with the whole new session stated; how it decides is pinned by `NextGoesOnIff` and `SingleTellsOnce` |
| TickSession.Agent.ProcessFederateRequest | RTIA/RTIA_federate.cc:1155-1193 | which requests each state accepts, and the session afterwards; any other request changes the time state as the service does |
| TickSession.Agent.Serve | RTIA/RTIA_federate.cc:1137-1154 | the services of time management, disabling both regulation and constraint included, change the time state and nothing else of the session, in whatever state of a tick |
| TickSession.Agent.Dispatch | RTIA/RTIA.cc:69-145 | what may be read in each tick state, and what it does |
| TickSession.TurnSettles | RTIA/RTIA_federate.cc:1246-1310 | a turn tells at most one thing and then it is the federate's move |
| TickSession.RunSettles | RTIA/RTIA.cc:69-145 | between turns a session is never about to decide |
| TickSession.AcksMatchSessions | RTIA/RTIA_federate.cc:1155-1193 | over any run there is exactly one acknowledgement for each session that ended and for each stop outside a session |
| TickSession.NoNetworkDuringCallback | RTIA/RTIA.cc:69-145 | from a callback until the federate moves on, no network message is read, nothing more is told or acknowledged, and the tick stays where it is, whatever the federate asks for meanwhile |
| TickSession.SingleTellsOnce | RTIA/RTIA_federate.cc:1246-1310 | over any run, a session opened for one callback tells at most one thing before it ends, whatever comes in |
| TickSession.NextGoesOnIff | RTIA/RTIA_federate.cc:1265-1277 | after a callback the next request is told the next waiting command iff the session is for several, the callback left more waiting and time was left; else the session is acknowledged |
| TickSession.TurnDecides | RTIA/RTIA_federate.cc:1265-1277 | a turn that tells something leaves the session open for more under exactly these conditions |
| TickSession.RequestWaitsIff | RTIA/RTIA_federate.cc:1155-1175 | with nothing to tell at first, a session waits iff the federate gave it time to; else it is acknowledged at once |
| TickSession.WaitingTurn | RTIA/RTIA.cc:69-145 | while it waits each message that comes in is followed by a tick, and running out of time ends it with nothing told |
| TickSession.StopTellsNothing | RTIA/RTIA_federate.cc:1184-1193 | a stop is acknowledged without a tick |
| TickSession.IdleTakes | RTIA/RTIA.cc:69-145 | outside a session a message is taken and nothing is told |
| TickSession.ReadWhen | RTIA/RTIA.cc:69-145 | in which tick states the network, the federate and the time-out are heard |
| TickSession.OutOfTurnIsRefused | RTIA/RTIA_federate.cc:1155-1193 | a request to open a session within one, or to go on where no callback was, changes nothing |
| TickSession.ServicesTakeEffect | RTIA/RTIA_federate.cc:1137-1154 | any other service changes the time state as outside a tick, and nothing of the session |
| Getopt.Rotate | RTIA/RTIA_cmdline.c:478-520 | the block swaps turn the two segments around, leave the rest alone, and come to an end |
| Getopt.Data.Exchange | RTIA/RTIA_cmdline.c:478-524 | so does the exchange, which also fixes both indices |
| Getopt.FindLong | RTIA/RTIA_cmdline.c:638-658 | an exact name wins, else the only meaning among those abbreviated, else ambiguous or none |
| Getopt.MatchIsUnique | RTIA/RTIA_cmdline.c:638-658 | this leaves one answer |
| Getopt.NameEnd | RTIA/RTIA_cmdline.c:635-636 | the name ends at the first equals sign |
| Getopt.Data.CheckLongOpt | RTIA/RTIA_cmdline.c:623-739 | from the option that the text before '=' selects: its value, or zero when it sets a flag, its argument from behind '=' or from the next element, the errors, and the elements used up |
| Getopt.Data.CheckShortOpt | RTIA/RTIA_cmdline.c:741-798 | the same for one letter, from its first place in the table and the colons behind it |
| Getopt.Data.ShuffleArgv | RTIA/RTIA_cmdline.c:542-611 | the scan stays a permutation in progress; at the end options come first, both groups in order; a non-option is never returned; nothing that is to be read is skipped |
| Getopt.Data.GetoptInternal | RTIA/RTIA_cmdline.c:870-900 | one call returns the first of what the original command line says from there on and leaves the rest, and comes nearer to the end |
| Getopt.ParseAll | RTIA/RTIA_cmdline.c:870-900 | repeated calls return exactly the options of the original command line in order and leave it sorted, with the index at the first non-option |
| Getopt.SplitKeepsOrder | RTIA/RTIA_cmdline.c:542-611 | both groups of the sorted line are subsequences of the original and together all of it |
| Getopt.OthersAreNonOptions | RTIA/RTIA_cmdline.c:542-611 | the second group holds non-options only, unless "--" cut the options short |
| OptionLaws.MatchMeans | RTIA/RTIA_cmdline.c:638-669 | a long name is accepted iff it is that of an option, or all options it abbreviates mean the same; it is unknown iff it abbreviates none |
| OptionLaws.LongReads | RTIA/RTIA_cmdline.c:670-715 | a long option without '=' is read as its value, or zero when it sets a flag, with the next element iff it requires an argument; lacking it, it is an error |
| OptionLaws.LongReadsValue | RTIA/RTIA_cmdline.c:673-676 | with '=' it is read with the text behind, or refused iff it takes no argument |
| OptionLaws.LongRefused | RTIA/RTIA_cmdline.c:659-739 | a name without a single meaning is refused and reading goes on behind it |
| OptionLaws.GroupBegins | RTIA/RTIA_cmdline.c:607-611 | an element with one dash, or any when there are no long options, is read as letters |
| OptionLaws.LetterReads | RTIA/RTIA_cmdline.c:741-798 | a letter is read by the colons behind its first place in the table: with no argument, one it requires, one it allows |
| OptionLaws.StrangerReads | RTIA/RTIA_cmdline.c:749-755 | a letter not in the table, or a colon, is refused and the letters behind it are read |
| OptionLaws.FlagsRead | RTIA/RTIA_cmdline.c:741-798 | any group of letters without arguments is told letter by letter |
| OptionLaws.OthersRead | RTIA/RTIA_cmdline.c:566-605 | what is no option is passed over, and "--" ends the options |

## Left out

- Rounding: the tolerance in comparisons of libCERTI/FedTime.cc; time is exact.
- The RTIA side of NULL PRIME, flushQueueRequest and retract: another build, or not implemented in the source.
- TimeManagement.TimeManager.ProcessNetworkMessage: messages for the object model, ownership and MOM count as plain
  messages of the receive-order list or as commands; those handled outside the lists are not part of this model.
- Disabling time constraint in the federation-wide runs: events already sent as dated would arrive as plain ones.
- A dated deleteObjectInstance: it is not gated by testValidTime (RTIA/ObjectManagement.cc:413-426), so it
  may break promises; the runs hold updates and interactions.
- Object classes, routing, ownership, regions: an event goes to an arbitrary set of federates chosen at each step.
- MOM, which forces requests and regulation past the RTIA's guards.
- Emergency kill and resigning: rounds do not take departures into account, and kill drops the broadcast that
  ends regulation.
- The RTIG's error answers, and the answers an RTIA blocks for, in the federation-wide streams; the waiting list
  that carries them is modelled by itself and in the join.
- Timed federation saves (RTIG/Federation.cc:789-834), reading and writing of save files: whether the save could
  be written is an input, and a restore file is taken to be readable.
- The RTIA's own set of synchronization labels, its restore flag, and the pausing they entail.
- An unknown federate in the set form of a registration ends in an uncaught exception; the model stops there with
  the labels added so far.
- Federate names and name clashes at a join, FOM modules, sockets, UDP and multicast, serialization, audit, debug
  output, wall-clock time: time-outs and whether there is time left for another callback are inputs.
- Error texts, `custom_optopt` and the variables behind long options in the argument scanner, and callers that move
  its index back.
- SaveOrder.EndNeverOvertakesStart: for a fixed membership, and federates that report once for each start they were
  told: the RTIG takes a second report for one on the next save, and its RTIA checks only whether a save is on.
- StuckSaves.SaveCanEndIff: says that a run to the end exists, not that federates follow it.
- Progress.NoDeadlock: for positive lookaheads and runs in which nobody stops regulating; for finite promises only,
  as nothing is left to wait for beyond.
- Liveness.WaitingEnds: says that the rounds can be completed, not that processes are scheduled fairly.
- Guarantees.ClockBoundsTheFuture: until the sender stops regulating, since what it sends afterwards as a new
  regulator has a new regulation date.
