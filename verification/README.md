# A verified model of channel

`channel` multiplexes one logical message channel over several transport connections, called underlays. This
project models the parts of it in which many goroutines, or two ends of a connection, have to agree on something,
and proves that they do.

The concurrent components are transition systems. A step is whatever a goroutine does between two points at which
others can act: one locked section, one atomic store, one call that may take any time. A run is any sequence of
enabled steps, so a lemma over runs is a statement about every interleaving.

The methods of the source that take part in them are methods of objects here, written as the source writes them.
Between their parts the other goroutines act: they take whatever steps an arbitrary schedule gives them. Each such
object carries the run it has been through, and every part of a method extends that run by a step, so what is proved
of runs holds of the objects; what a caller may rely on when a method returns is derived from it.

| modules | what they model |
|---|---|
| `GroupAccept`, `GroupAcceptSafety`, `GroupAcceptCauses`, `MultiListener` | the listener that gathers underlays into groups: reservations, admission, acknowledgement, publication and close callbacks |
| `ChannelLife`, `ChannelMembership`, `ChannelCauses`, `ChannelFill`, `ChannelOwnership`, `UnderlayCollection`, `ChannelObject` | a channel and its underlays: acceptance, loss, closing, the fallback underlay, and the goroutines that keep the configured counts |
| `SendPath`, `SendConservation`, `SendOrder`, `SendReplies`, `SendObject` | queues, transmitting goroutines (txers), retries, the calls that wait for a write, and reply waiters |
| `WaiterCounter`, `WaiterMapObject` | the waiter map and the counter that is kept beside it |
| `Bytes`, `MapOrder`, `HeaderBlock`, `Frame`, `FrameStream`, `Collections`, `WireLayout` | the wire format, byte by byte, under any header order and any chunking of the stream |
| `BackoffDelay`, `BackoffPolicy`, `BackoffHistory` | the dial policy: its 64-bit delay arithmetic, its failure accounting over time, its group ids |
| `HelloHeaders`, `Handshake`, `Dialer` | the hello exchange between a dialer and a listener, and the dial loop |

Go's `range` over a map is modelled as an arbitrary order, chosen anew for every loop. Times, timeouts,
cancellation, random draws and the results of reads, writes and dials are parameters or nondeterministic steps.
Fixed-width arithmetic is written out wherever it can wrap.

## Where the obvious claim is false

- An attaching underlay can be acknowledged after its channel has closed
  (`AttachMayBeAcknowledgedAfterClose`); only the creator is sure of its reservation at that moment.
- The fallback underlay is stored before the underlay is added, so "the fallback is a member" fails in that window
  as well as while a fix-up is due. `FallbackIsAMember` gives the exact condition, `FallbackBeforeMember` the run.
- The waiter counter drifts from the map. `CounterIsAccountedFor` says by exactly how much at every moment of every
  run, `ExactAtRestIff` when it is exact between operations. It goes wrong for a sequence registered twice
  (`TwiceRegistered`), a reply during a reap (`ReplyDuringReap`), two overlapping reaps (`TwoReapers`), and a removal
  or an addition inside a clear (`RemovalDuringClear`, `AdditionDuringClear`), from whatever state before.
- WaitForWire says nothing about the write unless it returns nil or the error of the write: a message already written
  may be reported as closed or timed out (`AnyMessageMayBeReportedClosed`).
- Marshalling may change the headers of the message it marshals: `HeadersSurviveIff`.
- A large base delay makes the backoff negative: `DelayIsSoundIff`, `DelayFollowsScheduleIff`.
- The ids of the two ends of an ungrouped connection may differ: `UngroupedIdsMayDiffer`, and exactly when in
  `HandshakeAgrees`.
- The listener's configured headers are copied after the success flag of an acknowledgement, so they can turn it
  into a refusal: `AckIsWelcomeIff`.

## Model

| member | source | states |
|---|---|---|
| `GroupAcceptSafety.AcknowledgedGroupIsNeverTurnedAway` | multi_listener.go:134-288 | in every interleaving, from a creator's acknowledged hello until its factory fails or its channel closes, every lookup of that id finds a live registration or a reservation, and no underlay of the group is closed for want of a channel |
| `GroupAcceptSafety.OpenGroupIsFindable` | multi_listener.go:140-182 | in every state satisfying the invariant, an open group is registered live or reserved |
| `GroupAcceptSafety.CreatorIsAcknowledgedUnderItsReservation` | multi_listener.go:218-228 | a creator's hello is acknowledged, successfully or not, only while its own reservation stands |
| `GroupAcceptSafety.AttachMayBeAcknowledgedAfterClose` | multi_listener.go:142-148 | any run in which an attaching underlay is about to be acknowledged extends to one where its channel closes first and the acknowledgement still goes out |
| `GroupAcceptSafety.AttachingRun` | multi_listener.go:218-228 | such runs exist: a concrete run in which a second underlay awaits its acknowledgement for the channel the first created |
| `GroupAcceptSafety.ClosedRegistrationAwaitsItsCallback` | multi_listener.go:264-302 | a registration marked closed is in the map only while a close callback of that same registration awaits the lock |
| `GroupAcceptSafety.NoClosedRegistrationAtRest` | multi_listener.go:293-302 | with no callback in flight, no registration in the map is closed |
| `GroupAcceptSafety.OnlyClosedRegistrationsLeave` | multi_listener.go:141-155 | whatever the step, a registration leaves the map only if it is itself closed, and a callback removes none but its own |
| `GroupAcceptSafety.OneCreatorPerGroup` | multi_listener.go:158-182 | at most one accept call per id is between reservation and release, so factory calls never overlap |
| `GroupAcceptSafety.PublishNeverOverwrites` | multi_listener.go:264-276 | publication writes into a vacant slot, and the registration is there afterwards |
| `GroupAcceptSafety.NobodyWaitsInVain` | multi_listener.go:186-198 | a waiting call can wake, or the call it waits for still holds the group's reservation |
| `GroupAcceptSafety.CreatorMovesOn` | multi_listener.go:207-288 | every step of a call that holds a reservation brings it closer to the release, by a measure of at most six steps, and no step of anyone else sets it back |
| `GroupAcceptSafety.CreatorIsNeverStuck` | multi_listener.go:207-288 | such a call always has a step to take, or waits for the lock while its holder has one |
| `GroupAcceptSafety.FinishedCallAccounts` | multi_listener.go:103-279 | a finished accept has closed its underlay or given it to exactly one owner, decided by its outcome; it acknowledged once, and not at all on rejection, timeout or missing group; the admitter was asked once by a creator and never otherwise |
| `GroupAcceptCauses.LookupIsExact` | multi_listener.go:140-182 | the lookup attaches if and only if a live channel is registered, else waits if and only if the id is reserved, else turns the underlay away if and only if it is not a first one, else reserves, with admission exactly where there is an admitter; it evicts what is stale and touches no other id |
| `GroupAcceptCauses.TurnedAwayIff` | multi_listener.go:158-182 | an underlay is turned away for want of a group if and only if it is not a first one and its id is neither registered live nor reserved |
| `GroupAcceptCauses.OutcomeHasItsCause` | multi_listener.go:103-288 | for every call that ends, with whatever outcome, the run holds the step that caused it: the answer of the fallback, the admitter, the factory, the channel or the network, a timeout, a lookup in vain, or the publishing check |
| `GroupAcceptCauses.CauseIsFinal` | multi_listener.go:103-288 | conversely, whatever causes an outcome causes it for good: no refusal, failure or answer is ignored later |
| `GroupAcceptCauses.OnlyFirstCreates` | multi_listener.go:158-182 | in every run only a grouped first underlay ever reserves, is put to the admitter, runs the factory or ends as a creator; a call ends without a group only if it is grouped and not first; only an ungrouped one ends with the fallback |
| `GroupAcceptCauses.AttachesToWhatItFound` | multi_listener.go:140-148 | the channel a call is to attach to is the one its own lookup found registered and live |
| `GroupAcceptCauses.AttachedToWhatItFound` | multi_listener.go:140-148 | and an attached underlay belongs to that channel |
| `GroupAccept.StepKeepsInv` | multi_listener.go:103-302 | every step of the listener protocol keeps the invariant that ties calls, maps, notifiers, registrations and callbacks together |
| `GroupAcceptSafety.RunInv` | multi_listener.go:103-302 | the invariant holds in every state of every run |
| `MultiListener.Listener.constructor` | multi_listener.go:317-333 | a new listener is the initial state of a run |
| `MultiListener.LookedUp` | multi_listener.go:140-182 | the locked section of the accept loop, branch by branch, computes the lookup that `LookupIsExact` and `TurnedAwayIff` pin down |
| `MultiListener.Listener.PublishSection` | multi_listener.go:264-276 | check and write under the lock, with closes in between; the slot written to is vacant |
| `MultiListener.Listener.ReleaseReservation` | multi_listener.go:283-288 | the reservation goes and its notifier is closed, for the first time |
| `MultiListener.Listener.FindGroup` | multi_listener.go:134-199 | the accept loop ends with the underlay closed, a channel to attach to, or the reservation of the id |
| `MultiListener.Listener.FindTurn` | multi_listener.go:134-199 | one turn of that loop: another follows only after a wake-up |
| `MultiListener.Listener.Wait` | multi_listener.go:186-198 | a wait ends with another lookup if the notifier was closed in time, and otherwise with a timeout |
| `MultiListener.Listener.AcceptCreating` | multi_listener.go:207-279 | admission, acknowledgement, factory, publication and release, to the end on every path |
| `MultiListener.Listener.AcceptUnderlay` | multi_listener.go:103-279 | with any answers and any interleaving: on return the underlay is closed or has exactly one owner of its group, was acknowledged at most once and never when refused; a creator outcome means the underlay came grouped and first, a missing group that it came grouped and not first; the admitter was asked once by a creator and by nobody else |
| `MultiListener.Listener.CloseRegistration` | multi_listener.go:293-302 | on return the registration is marked closed and out of the map, and what is under the same id is another one |
| `ChannelFill.NoLostWakeUp` | impl.go:725-882 | in every reachable state with no removal report in flight and no constraint goroutine left, the channel is closed; or it has no dial policy, no constraints and no minimum; or every configured minimum is at most the number of members counted and, with a dial policy, every desired count is met |
| `ChannelCauses.ShortKindIsDialed` | impl.go:792-822 | a kind that was short when counted, on a channel that meets its minimums, stays on the goroutine's list through every interleaving until that goroutine dials it |
| `ChannelCauses.ReleasesOnlyWhenDone` | impl.go:774-822 | a goroutine gives up its guard only on a closed channel, for want of a dial policy, or because no kind was short when counted |
| `ChannelCauses.CountDecides` | impl.go:792-816 | a turn of the fill loop closes the channel if and only if a minimum is unmet, releases if and only if none is and nothing is short, and otherwise sets out to dial exactly the kinds that are short |
| `ChannelCauses.CheckDecides` | impl.go:765-772 | the check before the guard closes the channel if and only if a minimum is unmet |
| `ChannelCauses.CountIsNumber` | underlays.go:93-102 | the count of a kind is the number of entries of that kind |
| `ChannelCauses.ClosesOnlyForCause` | impl.go:488-522 | a channel is closed only by its user, for a minimum found unmet, or because it is plain and was found without members when a loss was reported |
| `ChannelCauses.NotifyDecides` | impl.go:725-751 | the report of a loss starts a check of the constraints if the channel has a dial policy, constraints or a minimum, and otherwise closes it exactly when no member is left |
| `ChannelCauses.AcceptDecides` | impl.go:383-424 | AcceptUnderlay takes an underlay in if and only if the channel has a dial policy, constraints or a minimum, the secret is right and the channel is open, and closes it otherwise |
| `ChannelCauses.OnlyTheGroupIsAdmitted` | impl.go:383-424 | in every run the members beyond the first underlay all carry the group's secret, and a plain channel never has any |
| `ChannelCauses.EntriesChangeOnlyBy` | underlays.go:40-71 | members join at the end, leave by being spliced out, and no other step touches the collection |
| `ChannelCauses.ReplacementIsLatest` | impl.go:640-647 | the underlay chosen to replace a lost fallback is the latest member |
| `ChannelCauses.FallbackChangesOnlyBy` | impl.go:418-647 | the fallback changes only to the underlay being accepted, or to the replacement of a lost one |
| `ChannelFill.StepKeepsWake` | impl.go:725-835 | every step keeps the invariant behind it: any shortfall has someone on the way to notice it |
| `ChannelFill.FillNeverOvershoots` | impl.go:774-910 | fed only by its first underlay and its own dials, a channel never holds more of a constrained type than the larger of its desired and initial counts |
| `ChannelFill.StepKeepsFill` | impl.go:774-822 | every kind a dialing goroutine still has to dial stays short of its desired count |
| `ChannelMembership.StepKeepsInv` | impl.go:383-910 | every step of the channel keeps the membership, lock, guard and fallback invariant |
| `ChannelMembership.RunInv` | impl.go:383-910 | the invariant holds in every state of every run |
| `ChannelMembership.EntriesAreAddedMinusRemoved` | underlays.go:40-71 | at all times the entries are what was added and not removed, without repetition, and an underlay is reported removed at most once although two goroutines close it |
| `ChannelMembership.CloseClosesEverything` | impl.go:488-522 | once Close has returned, every underlay ever admitted is closed, and none is admitted for the rest of the run |
| `ChannelMembership.ClosedAddsNothing` | impl.go:383-424 | from the moment the channel is closed nothing is added |
| `ChannelMembership.FallbackIsAMember` | impl.go:632-648 | whenever there are members, the fallback is one of them if and only if no AcceptUnderlay is between storing and adding it and no closeUnderlay of that underlay has its fix-up ahead |
| `ChannelMembership.FallbackBeforeMember` | impl.go:418-419 | a run in which the fallback is not a member: an underlay being accepted on a channel with one member |
| `ChannelMembership.LockHolderCanProceed` | impl.go:383-522 | whoever holds the channel lock has an enabled step: the lock is never stuck |
| `ChannelOwnership.OfferedUnderlayIsNeverDropped` | impl.go:383-424 | at every moment an offered underlay is in exactly one place: waiting, in AcceptUnderlay's hands, added, or turned away and closed |
| `UnderlayCollection.Underlays.constructor` | underlays.go:35-37 | an empty collection without listeners |
| `UnderlayCollection.Underlays.AddListener` | underlays.go:105-109 | listeners are kept in order of registration |
| `UnderlayCollection.Underlays.Add` | underlays.go:40-49 | appends, and tells every listener once, in order |
| `UnderlayCollection.Underlays.Remove` | underlays.go:52-71 | splices out the first occurrence, says whether there was one, and tells every listener once, in order, exactly if there was |
| `UnderlayCollection.Underlays.First` | underlays.go:83-90 | the first entry, if any |
| `UnderlayCollection.CountsByType` | underlays.go:93-102 | the counts agree with the entries for every type, and add up to their number |
| `UnderlayCollection.CountsShowValidState` | impl.go:842-882 | in any iteration order, the answer is whether every minimum and the minimum total hold of the entries |
| `UnderlayCollection.AreConstraintDesiresSatisfied` | impl.go:827-835 | in any iteration order, the answer is whether no constrained type is short of its desired count |
| `UnderlayCollection.KindsShort` | impl.go:803-816 | in any iteration order, the types to dial are exactly those short of their desired count |
| `ChannelObject.Channel.constructor` | impl.go:294-305 | a channel with its first underlay started is the initial state of a run |
| `ChannelObject.Channel.Acquire` | impl.go:383-648 | whatever the others do, the channel lock comes free, and how far the waiting goroutine has got is unchanged |
| `ChannelObject.Channel.AcceptUnderlay` | impl.go:383-424 | on return the underlay is a running member, or closed and never added; it is taken in only with the right secret and on a channel with a dial policy, constraints or a minimum, and turned away only on one without any of these, for a wrong secret, or because the channel is closed |
| `ChannelObject.Channel.Close` | impl.go:488-522 | on return, whoever called it and whoever closed first, the channel is closed and so is every underlay it ever admitted |
| `ChannelObject.Channel.UnderlayRemoved` | impl.go:725-751 | a removal is reported once; a check of the constraints starts if there is a dial policy, a constraint or a minimum, and otherwise the channel is closed if no member was left |
| `ChannelObject.Channel.CloseUnderlay` | impl.go:632-648 | run by both goroutines of an underlay: on return it is closed and no member, the fallback is another one or there is no member, and whoever removed it has seen to its one report |
| `ChannelObject.Channel.FixFallback` | impl.go:640-647 | the locked section replaces a lost fallback by the latest member there is at that moment, and leaves any other alone |
| `ChannelObject.Channel.CheckMinimums` | impl.go:765-772 | the counts taken from the collection decide whether the channel goes on or is closed at once |
| `ChannelObject.Channel.TakeGuard` | impl.go:774-776 | this goroutine has the guard, or another one that is still there has it |
| `ChannelObject.Channel.CountAndPlan` | impl.go:792-803 | the counts decide, in terms of the configured minimums and desired counts, between closing, releasing and dialing exactly the kinds that are short |
| `ChannelObject.Channel.FillTurn` | impl.go:791-822 | a turn of the loop dials every kind that was short when it counted; it ends the loop only on a closed channel, an unmet minimum or with nothing short |
| `ChannelObject.Channel.Dial` | impl.go:804-816 | one dial for one kind, recorded in the run, its result offered to the channel |
| `ChannelObject.Channel.DialAll` | impl.go:804-816 | every kind that was short when counted is dialed in this turn: the run holds a dial of it since, and each result was offered to the channel |
| `ChannelObject.Channel.ReleaseAndRecheck` | impl.go:781-790 | after the guard is released, no desire is unmet without somebody left to see to it |
| `ChannelObject.Channel.ApplyConstraints` | impl.go:753-823 | over any number of turns: on return the channel is closed, there is nothing to enforce or to dial with, every kind has its desired count, or another goroutine is there |
| `SendConservation.ExactlyOnePlace` | impl.go:574-682 | over any number of txers and retries, an accepted message is in exactly one queue, with exactly one txer, or at exactly one outcome, and no queue holds it twice |
| `SendConservation.WrittenAndReportedAtMostOnce` | impl.go:574-630 | at most one successful write, one NotifyErr and one NotifyAfterWrite, and never both a write and an error |
| `SendConservation.OutcomeIsReported` | impl.go:574-630 | what each outcome means: written is one write, one NotifyAfterWrite and no error; expired or refused a timeout is one error and no write; failed for good is one error and one NotifyAfterWrite; a tracer is none of these |
| `SendConservation.QueuesAreFifo` | senders.go:50-127 | messages join a queue at its end, from a send or a retry, and leave at its front into the hands of one txer; nothing else changes a queue |
| `SendConservation.QueuesStayWithinCapacity` | senders.go:50-127 | in every run no queue holds more than its capacity, an unbuffered one at most the message being handed over |
| `SendConservation.ErrorChannelIsSafe` | envelope.go:134-174 | whenever NotifyErr sends, the one-slot error channel is empty and open; it is never closed twice |
| `SendConservation.NilOnlyIfWritten` | envelope.go:155-174 | whichever branch of its select it takes, WaitForWire returns nil only if the message was written, and the error of a failed write only if it was not |
| `SendConservation.ErrorChannelTellsTheTruth` | envelope.go:166-167 | what it reads from the error channel is nil if and only if the message was written |
| `SendConservation.AnyMessageMayBeReportedClosed` | envelope.go:163-165 | any waiting call, of a message written or not, may still be told that the channel has closed |
| `SendConservation.WaiterSurvivesRetry` | impl.go:593-620 | when any attempt's write succeeds, its waiter is registered unless a reply, the reaper or Close took it since |
| `SendConservation.QueuedMessageHasNoWaiter` | impl.go:606-621 | a message in a queue, retried or not, has no waiter |
| `SendConservation.AtMostOneMatchingReply` | impl.go:545-561 | a registered waiter is handed at most one reply, and one that answers its own sequence |
| `SendReplies.ReplyIsDelivered` | impl.go:545-561 | a reply to a sequence somebody waits for is handed to that registration, which then no longer waits; every other registration is untouched |
| `SendReplies.FirstReplyIsDelivered` | impl.go:545-621 | once a message that wants a reply is written by any attempt, its waiter not taken before, the first reply to it reaches the waiter of that attempt, unless expiry or close took it |
| `SendReplies.StrayReplyIsIgnored` | impl.go:545-561 | a reply nobody waits for changes nothing |
| `SendReplies.AttemptRegisters` | impl.go:593-604 | every attempt at a message that wants a reply registers a new waiter for it, empty, and no other attempt registers any |
| `SendReplies.WaiterLeavesOnlyBy` | impl.go:126-175 | a waiter leaves only by its reply, its expiry, the close of the channel or the failed write of its own message |
| `SendReplies.TakenOnlyBy` | impl.go:126-175 | a sequence counts as taken only by one of the first three, while it was registered |
| `SendReplies.ExpiryAndCloseTake` | impl.go:152-175 | an expired waiter is gone, Close leaves nobody waiting, and neither hands anyone a reply |
| `SendConservation.StepKeepsInv` | impl.go:574-682 | every step keeps every message's place and the tally of notifications that place implies |
| `SendConservation.StepKeepsWaiters` | impl.go:126-175 | every step keeps the correspondence of waiters and attempts |
| `SendOrder.WritesFollowAcceptance` | impl.go:654-682 | with one txer on a queue and no failed write, whatever else goes on, the messages that queue accepted are written in the order in which it accepted them |
| `SendObject.Sending.constructor` | senders.go:50-56 | empty queues are the initial state of a run |
| `SendObject.Sending.Send` | senders.go:87-127 | the message gets a sequence of its own; it is accepted, at the end of the queue, if and only if the caller did not give up and the queue had room: fewer messages than its capacity, or, unbuffered, none and a receiver waiting; otherwise it is refused and nowhere |
| `SendObject.Sending.WaitForWire` | envelope.go:155-174 | send and select together: nil only if written, an error of the write only if not written, and every answer is that of the branch taken at that moment |
| `SendObject.Sending.Move` | impl.go:574-630 | when tx reports an error halfway, the error channel is open and empty |
| `SendObject.Sending.Finish` | impl.go:574-630 | when tx ends with a report, the error channel written to is open and empty and the one closed is open; the message has that outcome and the tally that belongs to it |
| `SendObject.Sending.RetryToQueues` | senders.go:60-71 | the queues are tried one after the other, others acting in between: all before the one that took the message were full when tried, none is left untried if it stays with the txer, and where it is taken it is at the end, unreported and without a waiter |
| `SendObject.Sending.WriteFailed` | impl.go:606-621 | after a failed write the waiter goes first, and the message is then requeued or reported failed, never both |
| `SendObject.Sending.Transmit` | impl.go:574-630 | for every answer of the world and every interleaving: one place or outcome and the fitting tally; written, expired, traced or refused a timeout each exactly under its condition; the txer goes on exactly when there was no error |
| `WaiterCounter.CounterIsAccountedFor` | impl.go:117-175 | over every run of any number of adders, removers, reapers and a clear, the counter minus the size of the map equals the account of overwriting stores, late deletions, operations half done and operations a clear cut in two |
| `WaiterCounter.ExactAtRestIff` | impl.go:117-175 | with no operation under way the counter is exact if and only if those accounts balance |
| `WaiterCounter.StepAccounts` | impl.go:126-175 | every step keeps the account |
| `WaiterCounter.WaiterLeavesOnlyBy` | impl.go:143-175 | a waiter leaves the map only by being taken, by a reaper that found it, or in the wipe of a clear |
| `WaiterCounter.OnlyExpiredAreReaped` | impl.go:152-170 | what a reaper is about to delete had expired by its clock when it looked |
| `WaiterCounter.TwiceRegistered` | impl.go:126-141 | from any state at rest: a sequence registered again is counted again |
| `WaiterCounter.ReplyDuringReap` | impl.go:152-170 | from any state at rest: a waiter taken between the reaper's look and its deletion is counted by both |
| `WaiterCounter.TwoReapers` | impl.go:545-561 | from any state at rest: a waiter two reapers find is counted by both |
| `WaiterCounter.RemovalDuringClear` | impl.go:172-175 | from any state at rest: a removal inside a clear leaves -1 on an empty map |
| `WaiterCounter.AdditionDuringClear` | impl.go:172-175 | from any state at rest: an addition inside a clear leaves 1 on an empty map |
| `WaiterMapObject.WaiterMap.constructor` | impl.go:117-120 | an empty map, a counter of zero |
| `WaiterMapObject.WaiterMap.AddWaiter` | impl.go:126-141 | store, then count, others acting in between |
| `WaiterMapObject.WaiterMap.RemoveWaiter` | impl.go:143-150 | of any number of callers, the one whose deletion finds the waiter gets its receiver |
| `WaiterMapObject.WaiterMap.ReapExpired` | impl.go:152-170 | Range over any keys in any order; undisturbed, it drops exactly the expired waiters and subtracts their number |
| `WaiterMapObject.WaiterMap.Clear` | impl.go:172-175 | the counter first, the map second: what the counter shows afterwards is exactly what others counted in between |
| `HeaderBlock.ReadsExactlyTilings` | message.go:589-613 | bytes read as headers if and only if they are a gap-free tiling of key/length/value records, and then as the last-wins map of them |
| `HeaderBlock.UnmarshalHeaders` | message.go:589-613 | the loop computes that reading of arbitrary bytes, with every slice in range |
| `HeaderBlock.MarshalHeaders` | message.go:668-686 | writes the headers as a block, in whatever order the map yields them |
| `HeaderBlock.BlockReadsBack` | message.go:589-686 | a block of headers in any order reads back as those headers |
| `Frame.MessageObject.ReadReplyFor` | message.go:108-125 | the value read is cached, and is -1 unless the header is four bytes long |
| `Frame.MessageObject.ReplyTo` | message.go:401-408 | the reply answers the request's sequence and takes over its reflected header alone |
| `Frame.MessageObject.MarshalV2` | message.go:628-666 | the bytes are the message's frame, and a cached reply-for ends up in its headers |
| `Frame.FrameRoundTrip` | message.go:498-666 | with any header order and anything following, a frame reads back consuming exactly itself if headers and body fit MaxInt32, and is refused as too big otherwise |
| `Frame.ReplyForSurvives` | message.go:108-135 | ReplyFor and IsReply are the same on both sides |
| `Frame.HeadersSurviveIff` | message.go:637-639 | marshalling leaves the headers alone exactly when no reply-for is cached or the same one is in them |
| `Frame.HelloAgreesWithinLimits` | message.go:455-495 | on every V2 frame readHello agrees with ReadV2 within the hello limits and refuses every larger one |
| `Frame.HelloRoundTrip` | message.go:455-495 | a marshalled hello is read back if and only if it is within the limits |
| `FrameStream.ReadV2` | message.go:498-530 | under any chunking, the outcome and the bytes consumed are those of parsing the stream's contents |
| `FrameStream.UnmarshalV2` | message.go:533-579 | likewise for the part behind the message section |
| `FrameStream.ReadHello` | message.go:455-495 | likewise for readHello |
| `FrameStream.ReadUnknownVersionResponse` | message.go:720-752 | likewise for the list of versions a peer supports |
| `FrameStream.ReadMessages` | message.go:498-579 | any list of messages written one after the other is read back complete and in order under any chunking, with nothing after it touched |
| `FrameStream.GetRetryVersionFor` | message.go:759-776 | the first local version the peer also supports; found if and only if there is one |
| `FrameStream.VersionResponseIsUnderstood` | message.go:698-715 | the answer to an unknown magic is read as versions 1 and 2 |
| `WireLayout.FrameIsLaidOut` | message.go:628-666 | byte by byte: magic 3 6 9 12, content type, sequence and the two lengths, least significant byte first, then headers and body |
| `WireLayout.HeaderIsLaidOut` | message.go:668-686 | a header is key, length of the value and value |
| `WireLayout.ReplyIsHeaderOne` | message.go:637-642 | on the wire a cached reply-for is header 1 in four bytes, and every other header is as the message has it |
| `WireLayout.ReplyForReads` | message.go:108-135 | a received message replies to what its header 1 says if that has exactly four bytes, and to nothing otherwise |
| `WireLayout.FrameVerdict` | message.go:498-579 | for every byte string, which reason it is refused for or which message it is read as, each exactly under its condition |
| `WireLayout.CutFrameIsTruncated` | message.go:498-579 | a frame cut short anywhere is seen to be cut short, and is never taken for another message |
| `WireLayout.VersionsRoundTrip` | message.go:720-752 | the versions a peer lists are read exactly, up to 64 of them, and refused beyond |
| `WireLayout.VersionResponseBytes` | message.go:698-715 | the bytes of the answer to an unknown magic |
| `WireLayout.LastPairWins` | message.go:589-613 | of several headers or entries with one key the last counts |
| `WireLayout.KeysComeFromPairs` | message.go:589-613 | no key or value is read that is not on the wire |
| `Collections.SliceRoundTrip` | message.go:797-851 | decoding an encoded slice gives it back if and only if it has at most 128 items of at most 8192 bytes, and fails otherwise |
| `Collections.U32MapRoundTrip` | message.go:854-924 | the same for maps from uint32 to bytes, in any iteration order |
| `Collections.StrMapRoundTrip` | message.go:927-991 | the same for maps from strings to strings, both keys and values limited |
| `Collections.EncodeStringSlice` | message.go:797-820 | the buffer is filled exactly with the encoding |
| `Collections.EncodeU32ToBytesMap` | message.go:854-878 | filled exactly, the panic unreachable, even when the sizing and the writing loop visit the map in different orders |
| `Collections.EncodeStringToStringMap` | message.go:927-954 | the same for maps from strings to strings |
| `Collections.DecodeStringSlice` | message.go:823-851 | the loop over the remaining bytes decodes exactly what the format says, or fails |
| `Collections.DecodeU32ToBytesMap` | message.go:881-924 | the same for maps from uint32 to bytes, later entries winning |
| `Collections.DecodeStringToStringMap` | message.go:957-991 | the same for maps from strings to strings |
| `WireLayout.EntryIsLaidOut` | message.go:797-878 | a string is its length and its bytes, an entry of a uint32 map its key before that |
| `WireLayout.CollectionIsLaidOut` | message.go:797-820 | a collection is the number of its entries and the entries; an empty one is no bytes |
| `WireLayout.SliceDecodesIff` | message.go:823-851 | bytes decode to a slice if and only if they start with its encoding and it has at most 128 items of at most 8192 bytes |
| `WireLayout.PairsAlternate` | message.go:927-954 | in a string map each key stands right before its value |
| `MapOrder.FoldPairsOf` | message.go:668-686 | folding the pairs of a map, ranged over in any order, gives the map back |
| `BackoffDelay.DelayIsSoundIff` | dial_policy.go:149-171 | the int64 product never wraps, the delay is never negative and never shrinks with more failures: each if and only if the base delay is at most MaxInt64/2^30 |
| `BackoffDelay.DelayFollowsScheduleIff` | dial_policy.go:144-171 | the delay is min(base * 2^(f-1), max) for every f >= 1 if and only if the base is in bound and is zero or reaches max within 30 doublings |
| `BackoffDelay.LargeBaseTurnsNegative` | dial_policy.go:157-159 | over the bound, some number of failures from 2 to 31 gives a negative delay |
| `BackoffDelay.JitterStaysInRange` | dial_policy.go:161-168 | for every draw the jittered delay is between (1 - jitter) * delay and delay, with jitter capped at 1 |
| `BackoffDelay.JitterTakesTheFraction` | dial_policy.go:161-168 | a fraction of up to one is taken as configured, a larger one leaves a delay that is not negative |
| `BackoffDelay.JitterReachesEveryDelay` | dial_policy.go:161-168 | every whole delay above what the configured fraction leaves, up to the plain delay, is drawn by some random number |
| `BackoffHistory.FailuresAreNegativesSinceReset` | dial_policy.go:109-186 | in every run the failure count is the number of negative events since the last reset, modulo 2^32: failed dials and lifetimes below the configured stable time count, lifetimes of at least that and stale failures reset |
| `BackoffHistory.NegativesAddUp` | dial_policy.go:109-186 | over any part of a run without a reset, the negative events in it are added to the count, modulo 2^32, and nothing else changes it |
| `BackoffHistory.BackoffHoldsWithoutReset` | dial_policy.go:109-171 | over such a part, for a base delay in bound, the backoff at its end is at least that at its start |
| `BackoffHistory.ShortLivesRaiseTheDelay` | dial_policy.go:109-171 | k reports of lifetimes below the stable time, with any time between them, add exactly k to the count, and the delay that follows is at least that before |
| `BackoffHistory.LastNegativeIsLatest` | dial_policy.go:109-186 | the time of the last negative event is that of the latest one in the run |
| `BackoffHistory.StaleResetIsVindicated` | dial_policy.go:126-142 | when the stale check clears the count, every report of the underlay of the latest successful dial, anywhere in the run, gives it a lifetime of at least the stable time |
| `BackoffHistory.RunMovesForward` | dial_policy.go:109-186 | clock, last negative event and record of dials only move forward |
| `BackoffPolicy.SameIdIff` | dial_policy.go:205-215 | two dials of a policy use the same id if and only if the numbers of first dials up to them agree modulo 2^32 |
| `BackoffPolicy.FirstDialHasFreshId` | dial_policy.go:205-215 | below 2^32 first dials, a first dial's id differs from the base id and from the id of every earlier dial |
| `BackoffPolicy.OtherDialReusesId` | dial_policy.go:205-215 | any other dial uses the id of the dial before it |
| `BackoffPolicy.IdsComeRound` | dial_policy.go:205-215 | the 2^32-nd first dial is back at the base id |
| `BackoffPolicy.GroupIdInjective` | dial_policy.go:211-214 | different iterations give different ids |
| `BackoffPolicy.GroupIdReads` | dial_policy.go:205-215 | the id of iteration n is the base id, a hyphen and a decimal text without leading zeros that reads as n; iteration 0 is the base id |
| `BackoffPolicy.BackoffDialPolicy.constructor` | dial_policy.go:99-104 | a fresh policy with no history |
| `BackoffPolicy.BackoffDialPolicy.UnderlayClosed` | dial_policy.go:109-124 | a lifetime below the stable time is one more failure, now; any other sets the count to zero and leaves the time of the last failure |
| `BackoffPolicy.BackoffDialPolicy.ResetStaleFailures` | dial_policy.go:131-142 | the count goes to zero exactly when the last success is later than the last failure and at least the stable time ago |
| `BackoffPolicy.BackoffDialPolicy.GetBackoffDelay` | dial_policy.go:149-171 | the delay, within its jitter range |
| `BackoffPolicy.BackoffDialPolicy.RecordSuccess` | dial_policy.go:173-179 | moves the time of the last success and leaves the count alone |
| `BackoffPolicy.BackoffDialPolicy.RecordFailure` | dial_policy.go:181-186 | one more failure, now |
| `BackoffPolicy.BackoffDialPolicy.GroupConnectionId` | dial_policy.go:205-215 | a first dial takes the next iteration, any other the current one; the id is determined by all dials so far |
| `BackoffPolicy.BackoffDialPolicy.AwaitInterval` | dial_policy.go:229-242 | a dial that comes too early waits until exactly the minimum interval after the last one, and is given up if and only if it is cancelled in that wait; any other goes on at once |
| `BackoffPolicy.BackoffDialPolicy.MarkDial` | dial_policy.go:244-246 | the time of this dial is what the next one's interval counts from |
| `BackoffPolicy.BackoffDialPolicy.Connect` | dial_policy.go:247-282 | the attempt starts exactly when the backoff for the failures on record is over, and is given up if and only if it is cancelled in the backoff or before connecting |
| `BackoffPolicy.StaleFailuresDoNotDelay` | dial_policy.go:223-262 | left alone, a dial after a connection that has proved stable goes out without backoff |
| `BackoffPolicy.BackoffDialPolicy.Dial` | dial_policy.go:223-282 | with other goroutines using the policy between all its parts: the history grows by their events and by, in this order, the id, the stale check, the mark and exactly the event of its own result, a cancelled dial being no failure and a failed one exactly one; none connects before the interval since the last dial and the backoff for the failures then on record; the hello carries this dial's id, secret and type |
| `Handshake.HandshakeAgrees` | classic_dialer.go:186-243 | through the bytes of both messages: the hello is read if and only if within the limits, its acknowledgement is a welcome if and only if it fits a frame and keeps its success flag, and after a welcome a grouped connection has the same id and the same non-empty secret at both ends, any connection the same type, and ids agree if and only if the hello was grouped, left the id open or named the listener's |
| `Handshake.AckIsWelcomeIff` | classic_listener.go:281-314 | the dialer accepts an acknowledgement if and only if it fits the frame limit and the listener's configured headers leave its success flag set |
| `Handshake.AckTells` | classic_listener.go:281-308 | header by header, what an acknowledgement says: the id, the token, the group flag, and the type, secret and reflected header of the hello |
| `Handshake.AckCarries` | classic_listener.go:281-308 | every other header is the one given for this hello, else the configured one |
| `Handshake.JudgeReads` | classic_dialer.go:204-227 | an answer is a welcome exactly when it is a successful result for the hello; an unsuccessful one is final; a list of versions is passed on; all else may be retried |
| `Handshake.RejectionTellsWhy` | hello_reject.go:109-129 | read back, a refusal has its reason as body and its class, unless 0, in header 13 |
| `Handshake.UngroupedIdsMayDiffer` | classic_listener.go:229-237 | an ungrouped hello that names an id for which the two ends end up with different ones |
| `Handshake.RejectionIsFinal` | hello_reject.go:109-129 | a refusal, read back, is an error after which the dialer does not dial again |
| `Handshake.AcceptConnection` | classic_listener.go:191-258 | the connection is closed, or carries the hello's id if grouped and non-empty and a new one otherwise, and shares its headers, a grouped one's missing secret filled in, with the request; a peer of another version is told the versions spoken here |
| `Handshake.FillAnswer` | classic_listener.go:281-308 | configured headers in any order, then id and name, then what is echoed of the hello |
| `Handshake.AckHello` | classic_listener.go:281-314 | the bytes sent are the acknowledgement of that request, secret included |
| `Handshake.RejectHello` | hello_reject.go:109-129 | the refusal is sent and the connection closed |
| `Handshake.CopyHeaders` | messages.go:37-43 | copying in any order overrides exactly the copied keys |
| `Dialer.BuildHello` | classic_dialer.go:186-199 | a hello has content type 0, sequence -1 and the token as body; each header is the caller's, else the configured one, unless a provider rewrites them all |
| `Dialer.TakeAnswer` | classic_dialer.go:204-243 | the answer decides between a classified error and an open connection with the peer's id, from its headers or its certificate, the connection id and the headers |
| `Dialer.SendHello` | classic_dialer.go:160-246 | the exchange succeeds if and only if the deadline is set, the provider agrees, the hello is sent and the answer is a welcome; the connection is closed if and only if it fails |
| `Dialer.CreateWithHeaders` | classic_dialer.go:113-158 | a second connection is made if and only if the first hello was answered by a list of versions with 2 in it, and there is none after that; everything not returned is closed; an open one is returned if and only if an attempt was welcomed |
| `Dialer.PolicyHello` | dial_policy.go:263-281 | header by header, the hello of a policy's dial: group flag, id, secret and type, and the first flag exactly for a first dial |
| `Dialer.PolicyDialAgrees` | dial_policy.go:263-281 | a successful dial of the backoff policy, with any provider of hello headers: where the hello is grouped both ends hold the same id and non-empty secret; where the provider leaves the policy's headers alone they are that dial's id, secret and type, what the policy leaves open being supplied to both by the listener |

## Left out

- Frame, FrameStream: the two kinds of end-of-file error are one outcome (`Truncated`), because which one ReadV2 reports depends on the chunking.
- FrameStream: I/O errors other than the end of the stream; they end a read like an early end does.
- SendPath: sequence numbers are unbounded, which is the same as distinct 32-bit ones below 2^32 sends; an unbuffered queue is a queue with one slot that takes a message only when a receiver is there.
- SendPath: the contexts of envelopes; expiry and cancellation may happen at any time.
- SendPath: a message is either in a queue or with a txer while it is handed over; the copies a transport may make of it are not modelled.
- WaiterCounter: the counter is an unbounded integer; the int32 of the source wraps past 2^31 waiters.
- ChannelLife: underlays accepted, and channels closed, while the channel is still being bound; each underlay object is offered once.
- GroupAccept, ChannelLife: panics and re-entrant calls in application callbacks (factories, admitters, listeners, close handlers).
- MultiListener.Listener.AcceptUnderlay, ChannelObject.Channel.ApplyConstraints: their loops need not end, so a call is followed for any number of turns, and the result says whether it has returned by then.
- Handshake.AcceptConnection: hello handlers that rewrite the hello they are shown, and the deferred clearing of the deadline after the acceptor has run, whose failure closes the connection.
- BackoffHistory: measuring an underlay's lifetime and reporting it are one step.
- BackoffDelay: floating-point rounding; jitter is computed over reals and truncated.
- Handshake: messages of 4 GiB and more, whose length fields wrap; message strategies; certificates beyond the common name.
- Transports, TLS, datagram and websocket underlays, the existing-connection dialer and listener: an underlay is an object with an id, headers and a closed flag here, and what is read from it is a parameter.
- Heartbeats and latency probes: they depend on the wall clock and on lossy event queues, which the runs do not have.
- Option parsing, tracing, decoders, protobuf helpers, message dispatch and type routing: they read or forward what the modelled parts produce and change none of their state.
