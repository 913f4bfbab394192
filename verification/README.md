# A verified model of the zmqtt protocol engine

This project models the protocol engine of an MQTT 3.1.1 and 5.0 client, without its sockets, and proves what
the engine relies on. Every stretch of code between two suspensions is one event; runs are arbitrary sequences
of events, so that arriving packets, acknowledgements, cancellations and disconnects interleave in every way.
Where the program works step by step on mutable state, a class with the same fields does too, and each of its
methods is proved against the event it realises; the theorems are about the events and about all their runs.

`dafny verify dfyconfig.toml` checks the whole project.

## Parts

- **Subscription index** (`TopicMatching`, `Ordering`, `IndexSpec`, `MatchMeaning`, `SubscriptionIndex`,
  `IndexRollback`): the topic trie on the heap, with its filter map and identifier table, refines a list of
  registrations searched by linear scan. Pruning, stable order by specificity, ties and rollback are proved of it,
  and the match is said level by level in the words of sections 4.7.1 and 4.7.2.
- **Sessions** (`PacketIds`, `AckTables`, `AckProgress`, `ReplayBuffer`, `InboundExchanges`, `Inbound`, `InboundFlow`,
  `InboundTheorems`, `InboundOrder`, `DrainOrder`, `DrainFifo`, `ClearedPasses`, `Interruptions`,
  `AckedDeliveries`, `LiveDeliveries`, `DeliveryAcks`): ownership of packet identifiers, the futures callers wait on
  and what settles them, the inbound QoS 1 and 2
  handshakes and the replay buffer of a resumed session; the order in which a drain fills the queues and what it
  leaves behind, what an interrupted delivery costs, what `clear()` does to a suspended one, and what an
  acknowledgement on the wire says about delivery, and that nothing is lost on the way to its recipient.
- **Subscription ownership** (`SubscriptionGuards`, `SubscriptionOwnership`, `SubscriptionWithdrawal`,
  `SubscriptionCalls`, `RequestDispatcher`, `DispatcherProgress`, `DispatcherObject`): the ordered lock table, broker subscriptions shared by the
  application and the response observers over two FIFO wires, and the bounded request dispatcher.
- **Wire format** (`Wire`, `PropertyBlocks`, `TypedProperties`, `Codec`, `Framing`, `CodecLoops`, `Encodable`,
  `WireLayout`, `WireReading`, `Reader`): all fifteen packets in both versions, property blocks, framing and the
  incremental reader, which runs on the proved cursors and loops; and the bytes themselves, against the layouts and
  tables of the standard.

`Prelude` holds options, results and filtering of sequences.

## What the proofs found

- The trie looks at a `#` only where it stands last, `_match_parts` anywhere: they agree on all topics exactly
  when every registered filter has `#` only as its last level, which the validator guarantees.
- A replay delivery that is interrupted while its PUBREC is being sent goes back into the buffer although its
  exchange is recorded already. A PUBREL and a later drain then deliver the message twice. The bound proved is
  one delivery plus one for each such interruption, and it is attained for every number of interruptions. At the
  branch itself: an uninterrupted continuation can deliver the message twice if and only if its delivery breaks
  off. Afterwards its identifier is in two tables, and its PUBREC can be out before its `ack()`; both happen only
  to messages that were interrupted.
- A drain takes the held messages in arrival order, but does not put them into the queues in that order: an
  automatically acknowledged QoS 2 message enters its queue only when the broker releases it, so a younger message
  of the same drain overtakes it, with nobody consuming and nothing interleaved. The queue gets arrival order if
  and only if no such message was taken ahead of a younger one that went in at once.
- PUBCOMP goes out before the message is delivered. A QoS 2 message in the hands of the read loop can still reach
  the application if and only if the loop does not stop there; at most one completed message is ever lost so.
- `clear()` during a suspended delivery empties the topic counters of the buffer but not the local variables of its
  drain. When the send of that delivery then ends well, `_discard` raises at its topic counter: in every run, a
  suspended delivery of a drain whose send ends well misses its counter if and only if a `clear()` came since it was
  suspended. The drain stops there, with everything it still had back in a buffer whose count is -1. A suspended
  expiry is cancelled by `clear()` and never gets there.
- A SUBSCRIBE that is cancelled before its SUBACK frees its packet identifier at once, and the next SUBSCRIBE
  takes it. The late SUBACK resolves the second call, whose filters then stay in the index although the broker
  has not accepted them, and may reject them for good. Ownership of free filters is proved for all other filters,
  and for all filters when no SUBSCRIBE is sent under an identifier that the broker still owes a SUBACK; a new filter
  can be lost to the reuse if and only if one is owed.
- A SUBSCRIBE that the broker rejects in part takes all its new filters out of the index and tells the broker
  nothing: the accepted ones stay subscribed there. Apart from that, a filter that nobody wants is left at the broker
  only by calls that failed, were cancelled, or could not write.
- A SUBACK or UNSUBACK for a future that is already done raises inside the read loop, as a second
  acknowledgement or one for a cancelled caller does.
- PUBCOMP is accepted before PUBREC and ends the exchange: a PUBREL is sent for it if and only if the PUBCOMP finds
  the exchange past its PUBREC.
- `ping` is accepted after `run` has ended. Once `run` has ended, the caller of a ping waits on a pending future if
  and only if it made the ping after the end and has neither timed out nor been cancelled.
- Releasing an identifier below 1 would make the pool hand that number out; positive releases are safe.

## Model

| member | source | states |
|---|---|---|
| `TopicMatching.MatchPartsIsByLevel` | `src/zmqtt/_internal/topic_matching.py:60-69` | a filter with `#` only as last level matches exactly the topics that agree with it level by level, `+` standing for any one level and `#` for any rest |
| `TopicMatching.MatchAndRanksDetermineFilter` | `src/zmqtt/_internal/topic_matching.py:60-77` | two such filters that match one topic with equal level ranks are the same filter |
| `TopicMatching.ValidatorIsLevelRule` | `src/zmqtt/_internal/types/topic.py:16-34` | the character checks of the validator accept exactly the non-empty filters without a later `$` whose wildcards fill whole levels, `#` last |
| `TopicMatching.StrippedFilterStaysValid` | `src/zmqtt/_internal/topic_matching.py:25-51` | what is left of a valid filter after its broker decorators is empty or valid, and never starts with `$` |
| `TopicMatching.SharedSubscriptionMatchesItsFilter` | `src/zmqtt/_internal/topic_matching.py:25-51` | `$share/<group>/<filter>` is matched by exactly `<filter>`, whatever other prefixes are configured |
| `MatchMeaning.StrippingMeaning` | `src/zmqtt/_internal/topic_matching.py:25-51` | the actual filter is what follows the group of a shared subscription, what follows the first level behind a listed prefix, and else the filter itself |
| `TopicMatching.ValidatedTreeFilter` | `src/zmqtt/_internal/subscription_index.py:42-43` | the string a validated filter is filed under, with the raw filter standing in for an empty one, has `#` only as last level |
| `IndexSpec.TrieFindsTheScan` | `src/zmqtt/_internal/subscription_index.py:106-114` | when `#` is only ever a last level, the walk of the trie, filtered and sorted, is the stable sort of the linear scan |
| `IndexSpec.TrieIsScanExactlyWhenHashIsLast` | `src/zmqtt/_internal/subscription_index.py:176-203` | the trie agrees with the linear scan on every topic if and only if every registered filter has `#` only as last level |
| `IndexSpec.LinearMatchMeaning` | `src/zmqtt/_internal/subscription_index.py:106-114` | a match holds every matching registration as often as it is registered and nothing else, by ascending specificity, registration order inside equal specificity |
| `MatchMeaning.MatchIsByTheStandard` | `src/zmqtt/_internal/topic_matching.py:54-69` | a registration is in the match of a topic if and only if its actual filter agrees with the topic level by level and begins with `$` exactly when the topic does |
| `MatchMeaning.WildcardsDoNotReachDollarTopics` | `src/zmqtt/_internal/topic_matching.py:54-57` | no filter that begins with a wildcard level is in a match of a topic that begins with `$` |
| `MatchMeaning.NarrowerFiltersFirst` | `src/zmqtt/_internal/topic_matching.py:72-81` | at the first level where two filters differ, a literal comes before `+`, `+` before `#`, and an end before anything: a match never puts the narrower of two behind the wider |
| `MatchMeaning.MatchingFiltersCompare` | `src/zmqtt/_internal/topic_matching.py:72-81` | of two filters that match one topic, one is narrower in that sense, or they are the same |
| `MatchMeaning.AddMeaning` | `src/zmqtt/_internal/subscription_index.py:38-52` | after `add` the filter has its new entry alone, behind all others; what other filters have, and its order, stays |
| `MatchMeaning.RemoveMeaning` | `src/zmqtt/_internal/subscription_index.py:79-94` | after `remove` the filter has no entry; what other filters have, and its order, stays |
| `MatchMeaning.AddManyMeaning` | `src/zmqtt/_internal/subscription_index.py:102-104` | after `add_many` each of the filters has the last of its new entries, and every other filter what it had |
| `IndexSpec.TiesShareTheFilter` | `src/zmqtt/_internal/subscription_index.py:138-151` | two matches of one topic are equally specific exactly when they have the same actual filter |
| `IndexSpec.SelectMeaning` | `src/zmqtt/_internal/subscription_index.py:122-151` | the recipient is the earliest registered of the most specific matches, there is none exactly when nothing matches, and the ties are the registrations with the same actual filter in order |
| `IndexSpec.SelectByIdentifierMeaning` | `src/zmqtt/_internal/subscription_index.py:125-151` | a known identifier yields the first of the most specific matching entries of that identifier, or of all its entries when none matches, with their ties; an unknown one falls back to the topic and is reported |
| `IndexSpec.RemoveUndoesAdd` | `src/zmqtt/_internal/subscription_index.py:38-52` | adding a filter that was absent and removing it gives the registrations back, order included |
| `IndexSpec.AddKeepsDistinct` | `src/zmqtt/_internal/subscription_index.py:38-52` | re-adding a filter replaces it: no filter is ever registered twice |
| `SubscriptionIndexes.SubscriptionIndex.constructor` | `src/zmqtt/_internal/subscription_index.py:32-36` | an empty index: the trie is its root alone |
| `SubscriptionIndexes.SubscriptionIndex.Add` | `src/zmqtt/_internal/subscription_index.py:38-52` | the trie, the filter map and the identifier table after `add` are those of the registrations that `AddMeaning` describes |
| `SubscriptionIndexes.SubscriptionIndex.RemoveEntry` | `src/zmqtt/_internal/subscription_index.py:153-174` | the recursive removal takes one entry out and prunes exactly the nodes that have no entry left below them |
| `SubscriptionIndexes.SubscriptionIndex.Remove` | `src/zmqtt/_internal/subscription_index.py:79-94` | `remove` returns the entry of the filter and leaves all three structures as if it had never been registered |
| `SubscriptionIndexes.SubscriptionIndex.Clear` | `src/zmqtt/_internal/subscription_index.py:96-100` | afterwards nothing is registered or observed and the trie is a new root |
| `SubscriptionIndexes.SubscriptionIndex.AddMany` | `src/zmqtt/_internal/subscription_index.py:102-104` | adds every entry in order and keeps the observers |
| `SubscriptionIndexes.SubscriptionIndex.Get` | `src/zmqtt/_internal/subscription_index.py:76-77` | the registered entry of a filter, or none exactly when it is not registered |
| `SubscriptionIndexes.SubscriptionIndex.CollectInto` | `src/zmqtt/_internal/subscription_index.py:176-203` | the recursive walk of the heap appends exactly the entries the trie search yields below its node |
| `SubscriptionIndexes.SubscriptionIndex.Match` | `src/zmqtt/_internal/subscription_index.py:106-114` | the search through the heap returns the trie search of the registrations, which is the sorted linear scan for well-formed filters: the match that `MatchIsByTheStandard` and `NarrowerFiltersFirst` describe |
| `SubscriptionIndexes.SubscriptionIndex.Select` | `src/zmqtt/_internal/subscription_index.py:122-123` | returns the selection from the matches, which is the one `SelectMeaning` describes for well-formed filters |
| `SubscriptionIndexes.SubscriptionIndex.SelectWithIdentifier` | `src/zmqtt/_internal/subscription_index.py:125-136` | returns the selection that `SelectByIdentifierMeaning` describes, through the identifier table |
| `SubscriptionIndexes.SubscriptionIndex.AddResponseObserver` | `src/zmqtt/_internal/subscription_index.py:57-65` | true exactly for the first observer of a topic |
| `SubscriptionIndexes.SubscriptionIndex.RemoveResponseObserver` | `src/zmqtt/_internal/subscription_index.py:67-71` | true exactly when the topic was observed |
| `IndexRollback.FailedSubscribeLeavesNoTrace` | `src/zmqtt/_internal/protocol.py:362-385` | a `subscribe` that added new filters and takes them back leaves the registrations, in order, that the other calls' changes alone would have made |
| `PacketIds.FullPoolHasNoFreeId` | `src/zmqtt/_internal/state.py:20-33` | the pool refuses exactly when all 65535 identifiers are in use, and nothing below the search position is free |
| `PacketIds.ReleaseKeepsPoolExactlyWhenPositive` | `src/zmqtt/_internal/state.py:31-33` | the search position stays sound after a release if and only if the released number is positive |
| `PacketIds.ReleaseAllowsReuse` | `src/zmqtt/_internal/state.py:20-33` | an identifier released at once is the next one acquired |
| `PacketIds.PacketIdPool.Acquire` | `src/zmqtt/_internal/state.py:20-29` | the search loop ends without wrapping and returns the least free identifier, or the error when there is none |
| `PacketIds.PacketIdPool.Release` | `src/zmqtt/_internal/state.py:31-33` | the identifier is free and the search position does not pass it |
| `AckTables.ReachableStatesKeepInv` | `src/zmqtt/_internal/protocol.py:276-319` | in every reachable state the four ack tables are disjoint and their keys are exactly the identifiers in use; futures, calls and notes fit them |
| `AckTables.AckFreesOnlyItsOwnId` | `src/zmqtt/_internal/protocol.py:577-621` | an acknowledgement frees at most the identifier it names, and then only the exchange of its own table is gone |
| `AckTables.AtMostOnePubrel` | `src/zmqtt/_internal/protocol.py:587-611` | each outbound QoS 2 exchange sends PUBREL at most once, and never after a rejecting PUBREC |
| `AckTables.NobodyWaitsForeverAfterRunEnds` | `src/zmqtt/_internal/protocol.py:243-274` | once `run` has ended, whatever is called or resumes afterwards, every future in the four ack tables is done |
| `AckTables.PingWaitsForeverExactlyWhenLate` | `src/zmqtt/_internal/protocol.py:489-503` | in every run that has ended, whatever came before and after the end: the caller of a ping waits on a pending future if and only if it made it after the end and has not timed out or been cancelled |
| `AckTables.TimedOutPingIsListed` | `src/zmqtt/_internal/protocol.py:499-500` | in every run, a ping that times out is in the list of waiters, so `remove` never raises |
| `AckTables.PubcompSkipsPubrelExactlyBeforePubrec` | `src/zmqtt/_internal/protocol.py:613-621` | from every reachable state and whatever follows: a PUBCOMP ends its exchange in either phase, and a PUBREL is ever sent for it if and only if the PUBCOMP found it past its PUBREC |
| `AckTables.AckOfDoneCallRaises` | `src/zmqtt/_internal/protocol.py:623-637` | the SUBACK and UNSUBACK handlers raise exactly when the future of the call is done already, so always at the second acknowledgement |
| `AckProgress.PendingFuturesAreListed` | `src/zmqtt/_internal/protocol.py:264-319` | in every run, a pending future that no ping made is in one of the four ack tables, unless its own SUBSCRIBE or UNSUBSCRIBE call has left |
| `AckProgress.NothingPendsAfterTheEnd` | `src/zmqtt/_internal/protocol.py:243-262` | once `run` has ended, in every continuation, no future is pending but those of pings and of calls that left before |
| `AckProgress.OpeningMeaning` | `src/zmqtt/_internal/protocol.py:264-319` | a call is refused exactly when the connection is dead or no identifier is free; else a new pending future is listed in its own table under an identifier that was free, and nothing else changes |
| `AckProgress.AckOutcomes` | `src/zmqtt/_internal/protocol.py:577-637` | an acknowledgement is an error, and changes nothing, exactly for an unlisted identifier, a second PUBREC, or a future that is done already |
| `AckProgress.PubackResolves` | `src/zmqtt/_internal/protocol.py:577-585` | a PUBACK for a listed identifier leaves the future of its publish resolved and no other future changed, and ends the exchange |
| `AckProgress.PubrecFailsOrReleases` | `src/zmqtt/_internal/protocol.py:587-611` | a rejecting PUBREC leaves the future failed and sends no PUBREL; an accepting one settles nothing and sends it |
| `AckProgress.PubcompResolves` | `src/zmqtt/_internal/protocol.py:613-621` | a PUBCOMP leaves the future of its publish resolved and ends the exchange |
| `AckProgress.RequestAcksResolve` | `src/zmqtt/_internal/protocol.py:623-637` | SUBACK and UNSUBACK leave the future of their call resolved and its entry in place |
| `AckProgress.PongResolvesTheFirst` | `src/zmqtt/_internal/protocol.py:639-644` | a PINGRESP leaves the future of the first listed ping resolved |
| `AckProgress.LeavingMeaning` | `src/zmqtt/_internal/protocol.py:466-487` | a call that leaves frees its identifier and its table entry and touches nothing else |
| `AckProgress.EndMeaning` | `src/zmqtt/_internal/protocol.py:243-262` | the end of `run` fails exactly the futures that still wait in a table or for a PINGRESP, and no exchange opens after it |
| `AckProgress.GivingUpMeaning` | `src/zmqtt/_internal/protocol.py:489-503` | a caller of a ping gives up without touching its future, with a timeout taking it off the list; any other caller cancels its own |
| `AckTables.ClientSession.Open` | `src/zmqtt/_internal/protocol.py:264-274` | refuses on a dead connection or an exhausted pool, else takes the least free identifier and a new pending future |
| `AckTables.ClientSession.PublishQos1` | `src/zmqtt/_internal/protocol.py:290-305` | opens a QoS 1 exchange as its event |
| `AckTables.ClientSession.PublishQos2` | `src/zmqtt/_internal/protocol.py:307-319` | opens a QoS 2 exchange as its event |
| `AckTables.ClientSession.BeginSubscribe` | `src/zmqtt/_internal/protocol.py:441-463` | opens a SUBSCRIBE as its event |
| `AckTables.ClientSession.FinishSubscribe` | `src/zmqtt/_internal/protocol.py:466-468` | the `finally` removes the table entry and releases the identifier of its own call |
| `AckTables.ClientSession.BeginUnsubscribe` | `src/zmqtt/_internal/protocol.py:470-484` | opens an UNSUBSCRIBE as its event |
| `AckTables.ClientSession.FinishUnsubscribe` | `src/zmqtt/_internal/protocol.py:485-487` | the same for UNSUBSCRIBE |
| `AckTables.ClientSession.HandlePuback` | `src/zmqtt/_internal/protocol.py:577-585` | its event: by `PubackResolves` and `AckOutcomes` the publish is resolved, or the identifier is an error |
| `AckTables.ClientSession.HandlePubrec` | `src/zmqtt/_internal/protocol.py:587-611` | its event: rejection ends the exchange, acceptance sends PUBREL, a second PUBREC is an error |
| `AckTables.ClientSession.HandlePubcomp` | `src/zmqtt/_internal/protocol.py:613-621` | its event, in either state of the exchange |
| `AckTables.ClientSession.HandleSuback` | `src/zmqtt/_internal/protocol.py:623-628` | its event, including the error for a future that is already done |
| `AckTables.ClientSession.HandleUnsuback` | `src/zmqtt/_internal/protocol.py:630-637` | its event, including the error for a future that is already done |
| `AckTables.ClientSession.SendPing` | `src/zmqtt/_internal/protocol.py:489-495` | makes a future and lists it, on a dead connection too |
| `AckTables.ClientSession.TimeOutPing` | `src/zmqtt/_internal/protocol.py:499-500` | takes its own waiter out of the list; the future stays as it is |
| `AckTables.ClientSession.HandlePingresp` | `src/zmqtt/_internal/protocol.py:639-644` | resolves the first listed waiter, if any |
| `AckTables.ClientSession.EndRun` | `src/zmqtt/_internal/protocol.py:243-262` | fails every pending future of the four tables and of the pings, and refuses new exchanges |
| `ReplayBuffer.AppendKeepsCounters` | `src/zmqtt/_internal/inbound.py:142-150` | buffering a message keeps the count, the per-topic counts without zeros and the identifier set exact |
| `ReplayBuffer.DiscardKeepsCounters` | `src/zmqtt/_internal/inbound.py:242-254` | discarding a held message keeps them exact and never misses its topic counter |
| `ReplayBuffer.PassedNeverOvertakes` | `src/zmqtt/_internal/inbound.py:123-140` | a message for a subscription is passed on exactly when no held message has its topic |
| `InboundExchanges.HeldForgotten` | `src/zmqtt/_internal/inbound.py:234-240` | dropping the held messages leaves every remaining exchange with its tables |
| `InboundExchanges.LiveHandedOver` | `src/zmqtt/_internal/inbound.py:398-479` | handing a live message over keeps the tables, the acks and the at-most-once budget in order |
| `Inbound.AdvanceKeeps` | `src/zmqtt/_internal/inbound.py:205-232` | a delivery pass, up to any suspension or its end, keeps counters, order, tables, budget and ledger |
| `Inbound.StepKeeps` | `src/zmqtt/_internal/inbound.py:257-500` | every event in every interleaving keeps the whole invariant of the inbound flow |
| `InboundTheorems.DeliveredAtMostOncePlusInterruptions` | `src/zmqtt/_internal/inbound.py:385-396` | in every run a message of any QoS reaches the application at most once plus once for each time its replay delivery was interrupted while its acknowledgement was being sent |
| `InboundTheorems.DeliveredAtMostOnce` | `src/zmqtt/_internal/inbound.py:328-336` | in every run: at most once for a message of any QoS whose own delivery was never interrupted, whatever happened to others |
| `LiveDeliveries.NoPassedMessageIsLost` | `src/zmqtt/_internal/inbound.py:315-500` | in every run, whatever arrived for a recipient and did not have to wait is delivered to that recipient, with the read loop on its way to it, in flight for it with its PUBREC out, or was with the read loop when that stopped |
| `LiveDeliveries.ArrivalMeaning` | `src/zmqtt/_internal/inbound.py:315-500` | a new message that need not wait: an automatically acknowledged QoS 2 message is recorded with its recipient and its PUBREC goes out; any other is the last delivery, once its queue has room, with its PUBACK behind it or itself waiting for `ack()` |
| `LiveDeliveries.WaitingMeaning` | `src/zmqtt/_internal/inbound.py:123-150` | a new message that has to wait goes behind all held ones and nothing else happens, unless the buffer is at its limit; that and a missing identifier stop the read loop |
| `LiveDeliveries.VerdictIs` | `src/zmqtt/_internal/inbound.py:123-150` | a message is passed on exactly when no session is resumed, a request takes it, or a subscription does and nothing on its topic is held; else it is a known one, one too many, or held |
| `LiveDeliveries.AckMeaning` | `src/zmqtt/_internal/inbound.py:420-479` | `ack()` takes the message off the waiting ones and its PUBACK, or its PUBREC with a delivered flight, goes out |
| `LiveDeliveries.PubrelMeaning` | `src/zmqtt/_internal/inbound.py:328-336` | a PUBREL takes the flight, PUBCOMP goes out, and the message follows to its own recipient unless it was delivered; one for no exchange stops the read loop |
| `DeliveryAcks.DeliveredIsAcknowledged` | `src/zmqtt/_internal/inbound.py:398-479` | in every run a delivered QoS 1 message has its PUBACK on the wire and a QoS 2 message its PUBREC, with automatic acknowledgement also its PUBCOMP, or it waits for its `ack()` |
| `Interruptions.BoundIsAttained` | `src/zmqtt/_internal/inbound.py:205-232` | for every n a run of a new connection with n interruptions of a message and n + 1 deliveries of it |
| `Interruptions.EveryInterruptionCanDeliverAgain` | `src/zmqtt/_internal/inbound.py:205-232` | from every reachable state where a QoS 2 message is held and the read loop is idle, n interruptions can bring n + 1 more deliveries |
| `Interruptions.DeliveredTwiceExactlyWhenInterrupted` | `src/zmqtt/_internal/inbound.py:205-232` | from every reachable state with a QoS 2 message in hand, not interrupted before, and a live read loop: an uninterrupted continuation can deliver it twice if and only if this delivery breaks off |
| `Interruptions.IdentifierSharedExactlyWhenInterrupted` | `src/zmqtt/_internal/inbound.py:205-232` | the message in hand ends up held with its identifier in flight if and only if the delivery breaks off before the message was released |
| `Interruptions.InterruptionSharesIdentifiers` | `src/zmqtt/_internal/inbound.py:450-479` | from every reachable state with a held QoS 2 message: an interruption puts it in flight while held, and a manual recipient then has it waiting for `ack()` with its PUBREC sent and its identifier in both tables |
| `AckedDeliveries.AcknowledgedIsDelivered` | `src/zmqtt/_internal/inbound.py:328-336` | in every run: a message whose PUBACK is on the wire was delivered unless nobody was selected for it; one whose PUBCOMP is on the wire was delivered, is with the read loop, or was with it when it stopped |
| `AckedDeliveries.AtMostOneCompletedIsUndelivered` | `src/zmqtt/_internal/inbound.py:328-336` | in every run at most one message that somebody was selected for is undelivered with its PUBCOMP on the wire |
| `AckedDeliveries.LostExactlyWhenReaderStops` | `src/zmqtt/_internal/inbound.py:328-336` | from every reachable state where the read loop holds a QoS 2 message: the message can still reach the application if and only if the loop does not stop there |
| `InboundTheorems.DuplicateStartsNothing` | `src/zmqtt/_internal/inbound.py:432-448` | a repeated PUBLISH of an open QoS 2 exchange changes nothing, except that PUBREC is sent again once it was sent |
| `InboundTheorems.PubrecBeforeAckExactlyAfterInterruption` | `src/zmqtt/_internal/inbound.py:450-479` | in every run, the PUBREC of a message that waits for its `ack()` is on the wire if and only if it is a QoS 2 message whose earlier delivery was interrupted |
| `InboundTheorems.SharedIdentifiersWereInterrupted` | `src/zmqtt/_internal/inbound.py:432-479` | in-flight identifiers, identifiers waiting for `ack()` and held identifiers are pairwise disjoint in every run, but for messages that were interrupted themselves and the one being delivered |
| `InboundTheorems.ReplayConserved` | `src/zmqtt/_internal/inbound.py:123-172` | at every suspension the counters are exact, the held messages are in arrival order and within the limit, and every buffered message is exactly one of held, handed over, dropped |
| `InboundTheorems.LiveNeverOvertakesHeld` | `src/zmqtt/_internal/inbound.py:123-150` | in every reachable state a live message goes straight to a subscription exactly when nothing on its topic is held |
| `InboundTheorems.DroppingEndsReplay` | `src/zmqtt/_internal/inbound.py:160-172` | a pass that drops messages leaves the session without replay |
| `InboundTheorems.PassEndMeaning` | `src/zmqtt/_internal/inbound.py:152-172` | a pass that is not suspended leaves the session idle with nothing held, without replay exactly when it was an expiry that dropped what was left, or, as a drain, with what is left |
| `InboundTheorems.NothingHeldAfterDropping` | `src/zmqtt/_internal/inbound.py:160-172` | once a pass has dropped messages, in every continuation nothing is ever buffered again |
| `InboundTheorems.DrainAllIsPassesInARow` | `src/zmqtt/_internal/inbound.py:205-232` | an uninterrupted drain is what the suspended passes do when each resumes at once |
| `InboundOrder.ReachableFlowsAreOrdered` | `src/zmqtt/_internal/inbound.py:205-232` | in every run, what the passes put into queues themselves is what they took and need not hold for PUBREL, in the order taken, and a message that waits for PUBREL is in flight, with the read loop, or delivered |
| `DrainOrder.DrainTakesInArrivalOrder` | `src/zmqtt/_internal/inbound.py:205-232` | a drain takes held messages in arrival order, whatever arrives, is released or acknowledged at its suspensions |
| `DrainOrder.DrainDeliversInArrivalOrder` | `src/zmqtt/_internal/inbound.py:205-232` | with the same interleavings, what a drain puts into queues itself is what it took and need not hold for PUBREL, in arrival order; only a message that had to wait for PUBREL comes behind a younger one |
| `DrainOrder.QueueOrderIsArrivalOrderExactly` | `src/zmqtt/_internal/inbound.py:328-336` | after a drain and the releases of its messages, a queue has them in arrival order if and only if no automatically acknowledged QoS 2 message for it was taken ahead of a younger one that went in at once |
| `DrainOrder.MixedQosIsReordered` | `src/zmqtt/_internal/inbound.py:450-464` | a run with no consumer and no interleaving that puts the younger of two messages first |
| `DrainFifo.DrainIsComplete` | `src/zmqtt/_internal/inbound.py:205-232` | whatever a drain leaves behind, at its end or at a suspension and with anything in between, one of its passes found undeliverable |
| `DrainFifo.DrainIsFifoPerQueue` | `src/zmqtt/_internal/inbound.py:205-232` | with arrivals, releases and acknowledgements between its passes, while a queue only fills: whatever a drain put into the queue is older than whatever it leaves behind for it |
| `InboundTheorems.DrainAllIsComplete` | `src/zmqtt/_internal/inbound.py:205-232` | an uninterrupted drain leaves behind only what it found undeliverable |
| `ClearedPasses.CounterFoundExactlyWithoutClear` | `src/zmqtt/_internal/inbound.py:174-183` | from every reachable state with a suspended delivery, whatever happens before its send ends: `clear()` breaks an expiry off, and a drain's `_discard` finds its topic counter, when the send ends well, if and only if no `clear()` came since |
| `ClearedPasses.MissedExactlyAfterClear` | `src/zmqtt/_internal/inbound.py:242-254` | in every run, for every delivery that is suspended at its end: its counter is missed if and only if `clear()` came since a state in which it was suspended in the session |
| `ClearedPasses.SendOfPassEnds` | `src/zmqtt/_internal/inbound.py:205-232` | at a missing counter nothing is handed over any more, and what the pass still had is back in a buffer that counts -1 |
| `ClearedPasses.ClearedDrainMissesItsCounter` | `src/zmqtt/_internal/inbound.py:174-183` | the run that holds a message, starts a drain, clears and resumes ends at the missing counter |
| `ClearedPasses.InterruptionMeaning` | `src/zmqtt/_internal/inbound.py:205-232` | a delivery that breaks off leaves everything held in its order and notes the interruption; after a `clear()` its message goes back with what the pass still had |
| `ClearedPasses.ClearMeaning` | `src/zmqtt/_internal/inbound.py:174-183` | `clear()` drops what is held and the exchanges of what it drops, and touches no queue, no acknowledgement and no other exchange |
| `InboundFlow.InboundPublishFlow.constructor` | `src/zmqtt/_internal/inbound.py:266-294` | a new flow, with or without a session to resume |
| `InboundFlow.InboundPublishFlow.Accept` | `src/zmqtt/_internal/inbound.py:123-150` | the active replay state judges and buffers as specified: pass on, hold, ignore a known identifier, or fail on overflow |
| `InboundFlow.InboundPublishFlow.DeliverPending` | `src/zmqtt/_internal/inbound.py:205-232` | the two nested loops do what the specified pass does up to a suspension or the end |
| `InboundFlow.InboundPublishFlow.HandlePublish` | `src/zmqtt/_internal/inbound.py:315-326` | the arrival event, which `ArrivalMeaning`, `WaitingMeaning` and `DuplicateStartsNothing` describe |
| `InboundFlow.InboundPublishFlow.HandlePubrel` | `src/zmqtt/_internal/inbound.py:328-336` | the PUBREL event: the flight is taken, PUBCOMP goes out, and an undelivered message follows |
| `InboundFlow.InboundPublishFlow.StartPass` | `src/zmqtt/_internal/inbound.py:152-172` | a drain or an expiry up to its first suspension or its end |
| `InboundFlow.InboundPublishFlow.ResumePass` | `src/zmqtt/_internal/inbound.py:205-232` | a suspended delivery ends well and the pass goes on; or it raises, exactly when the topic counter of the message is gone |
| `InboundFlow.InboundPublishFlow.InterruptPass` | `src/zmqtt/_internal/inbound.py:205-232` | a suspended delivery fails: everything undelivered goes back in order, also into a buffer that was cleared |
| `InboundFlow.InboundPublishFlow.AckMessage` | `src/zmqtt/_internal/inbound.py:420-479` | `ack()` sends PUBACK, or records the delivered flight and sends PUBREC |
| `InboundFlow.InboundPublishFlow.ResumePut` | `src/zmqtt/_internal/inbound.py:481-499` | the suspended put of the read loop ends: the message is in the queue and the QoS 1 acknowledgement follows |
| `InboundFlow.InboundPublishFlow.ResumeSend` | `src/zmqtt/_internal/inbound.py:328-336` | a suspended send of the read loop ends: what had to be delivered after it is delivered or waits for its queue |
| `InboundFlow.InboundPublishFlow.StopReader` | `src/zmqtt/_internal/inbound.py:315-336` | the read loop stops in the middle of what it was doing |
| `InboundFlow.InboundPublishFlow.Clear` | `src/zmqtt/_internal/inbound.py:296-298` | nothing is held any more and replay is over; a drain suspended in a delivery keeps its local variables, an expiry is cancelled |
| `SubscriptionGuards.SortedSetProperties` | `src/zmqtt/_internal/protocol.py:79-80` | the filters are taken in strictly ascending order, each once |
| `SubscriptionGuards.AscendingIsDetermined` | `src/zmqtt/_internal/protocol.py:79-80` | the same filters are taken in the same order however they were listed |
| `SubscriptionGuards.OverlappingHoldersExclude` | `src/zmqtt/_internal/protocol.py:77-96` | in every run no two tasks are inside with a common filter, whatever was cancelled at whatever acquire |
| `SubscriptionGuards.TableIsExact` | `src/zmqtt/_internal/protocol.py:77-96` | the table has exactly the guards in use with their exact number of users, and is empty when no task is inside |
| `SubscriptionGuards.HoldsMeaning` | `src/zmqtt/_internal/protocol.py:77-96` | who enters is listed with each of its filters once, in order and without a lock; the next lock is taken exactly when nobody has it; who leaves is gone; nobody else's hold changes |
| `SubscriptionGuards.WaitingTaskHasOnlyEarlierLocks` | `src/zmqtt/_internal/protocol.py:85-88` | a task that waits for a filter holds only smaller ones |
| `SubscriptionGuards.WaitingEndsAtARunnableTask` | `src/zmqtt/_internal/protocol.py:85-88` | following the holders of awaited locks from any task ends at a task that can go on: there is no deadlock |
| `SubscriptionGuards.EveryTaskCanFinish` | `src/zmqtt/_internal/protocol.py:77-96` | from every reachable table all tasks can still get all their locks and leave, with nobody cancelled, and the table is empty then |
| `SubscriptionGuards.Guards.Enter` | `src/zmqtt/_internal/protocol.py:79-83` | joins the guard objects in the table, making the missing ones; all users of a filter share one object and no two filters do |
| `SubscriptionGuards.Guards.Acquire` | `src/zmqtt/_internal/protocol.py:87-88` | the next lock is taken |
| `SubscriptionGuards.Guards.Leave` | `src/zmqtt/_internal/protocol.py:90-96` | unlocks what was acquired, gives up every use and removes the unused guards, from any point of `hold` |
| `SubscriptionOwnership.ReachableStatesKeep` | `src/zmqtt/_internal/protocol.py:354-439` | in every run what is in the index or observed for good is subscribed at the broker with nothing on the wire to change it, filters of misled calls aside; every waiting SUBSCRIBE is the last word about its filters |
| `SubscriptionOwnership.FreeFiltersAreOwned` | `src/zmqtt/_internal/protocol.py:354-439` | on a live connection a filter whose guard is free and that is in the index or observed is subscribed at the broker, unless a call for it was handed another call's SUBACK and it has been neither withdrawn nor accepted since |
| `SubscriptionOwnership.OwnedUnderFreshIds` | `src/zmqtt/_internal/protocol.py:354-439` | no exception when no SUBSCRIBE reuses an identifier that the broker still owes a SUBACK |
| `SubscriptionOwnership.ReusedIdLosesOwnership` | `src/zmqtt/_internal/protocol.py:441-468` | from every reachable live state, a SUBSCRIBE for a new ungranted filter sent under an identifier with an owed SUBACK, when the calls whose answers are ahead of it still wait, has a continuation that leaves the filter free, in the index and not subscribed, with nothing on its way to the broker |
| `SubscriptionOwnership.OwnershipIsLostExactlyByReuse` | `src/zmqtt/_internal/protocol.py:441-468` | after every run without reuse, when those calls still wait: such a SUBSCRIBE can ever lose its filter for good if and only if the broker still owes a SUBACK for its identifier |
| `SubscriptionOwnership.IdentifierReuseCanMislead` | `src/zmqtt/_internal/protocol.py:441-468` | a concrete run: a cancelled SUBSCRIBE's SUBACK resolves the next one, and a filter the broker rejected stays in the index |
| `SubscriptionWithdrawal.GivenUpIsWithdrawn` | `src/zmqtt/_internal/protocol.py:396-439` | in every run on a live connection, a filter that is neither indexed nor observed is not granted once the broker has taken what is on the wire, unless the call that gave it up failed, was cancelled, rejected, or could not write |
| `SubscriptionWithdrawal.StraysComeFromFailures` | `src/zmqtt/_internal/protocol.py:382-439` | only such calls leave a filter behind, and the next UNSUBSCRIBE that names it clears it |
| `SubscriptionWithdrawal.UnsubscribeSends` | `src/zmqtt/_internal/protocol.py:396-407` | one UNSUBSCRIBE of exactly the unobserved filters, in order, goes out and withdraws them; when all are observed, their renewal does |
| `SubscriptionWithdrawal.UnobserveSends` | `src/zmqtt/_internal/protocol.py:434-439` | the observer goes, and an UNSUBSCRIBE of its topic goes out exactly when it was observed and the application does not own it |
| `SubscriptionWithdrawal.SubscribeSends` | `src/zmqtt/_internal/protocol.py:354-385` | the filters enter the index and one SUBSCRIBE of all of them, in order, goes out, whose answer the call awaits |
| `SubscriptionWithdrawal.ObserveSends` | `src/zmqtt/_internal/protocol.py:414-427` | a SUBSCRIBE goes out exactly for the first observer of a topic the application does not own |
| `SubscriptionWithdrawal.AnsweredCallLeaves` | `src/zmqtt/_internal/protocol.py:374-407` | an answered call leaves; a rejected one takes back exactly what it added; an `unsubscribe` first renews what is still observed |
| `SubscriptionWithdrawal.AbortMeaning` | `src/zmqtt/_internal/protocol.py:382-427` | a cancelled call takes back exactly what it added and tells the broker nothing |
| `SubscriptionWithdrawal.NothingSentMeaning` | `src/zmqtt/_internal/protocol.py:354-439` | a call that cannot write or finds the connection dead sends nothing and does not wait; `unsubscribe` on a live connection gives its filters up all the same |
| `SubscriptionWithdrawal.DispatchMeaning` | `src/zmqtt/_internal/protocol.py:623-637` | the next acknowledgement answers exactly the call that waits under its identifier; without one the connection is over |
| `SubscriptionWithdrawal.RejectedInPartStaysSubscribed` | `src/zmqtt/_internal/protocol.py:374-385` | from every reachable state: when a SUBSCRIBE is rejected in part, an accepted new filter leaves the index but stays subscribed at the broker |
| `SubscriptionCalls.Subscriptions.Subscribe` | `src/zmqtt/_internal/protocol.py:354-385` | new filters enter the index before SUBSCRIBE goes out and leave it when the write fails |
| `SubscriptionCalls.Subscriptions.Partition` | `src/zmqtt/_internal/protocol.py:398-399` | the filters with and without a response observer, in order |
| `SubscriptionCalls.Subscriptions.Unsubscribe` | `src/zmqtt/_internal/protocol.py:396-407` | its event, which `UnsubscribeSends` describes: all filters leave the index, one UNSUBSCRIBE names exactly those without an observer, observed ones alone go straight to the renewed SUBSCRIBE |
| `SubscriptionCalls.Subscriptions.Observe` | `src/zmqtt/_internal/protocol.py:414-427` | the first observer subscribes unless the application owns the topic, and is taken back on failure |
| `SubscriptionCalls.Subscriptions.Unobserve` | `src/zmqtt/_internal/protocol.py:434-439` | the observer goes, and UNSUBSCRIBE follows unless the application owns the topic or the connection is dead |
| `SubscriptionCalls.Subscriptions.Continue` | `src/zmqtt/_internal/protocol.py:374-407` | an answer finishes the call, undoes it on a rejection, or goes on to renew the observed filters |
| `SubscriptionCalls.Subscriptions.Fail` | `src/zmqtt/_internal/protocol.py:382-427` | a cancellation or failure takes back exactly what the call may take back |
| `SubscriptionCalls.Subscriptions.HandleAck` | `src/zmqtt/_internal/protocol.py:623-637` | an acknowledgement resolves the call pending under its identifier, or ends the connection |
| `RequestDispatcher.ReachableStatesKeep` | `src/zmqtt/_internal/request_response.py:62-231` | every event keeps the permits, the interests, the claims and the completions in order |
| `RequestDispatcher.PermitsAreConserved` | `src/zmqtt/_internal/request_response.py:99-129` | free permits, pending requests and closes in progress are always all the permits, and every other request ever made has given its permit back exactly once |
| `RequestDispatcher.InterestsAreExact` | `src/zmqtt/_internal/request_response.py:159-197` | each interest counts exactly the pending keys on its topic, and one without any exists only while a close waits for its readiness |
| `RequestDispatcher.ClaimedOncePerGeneration` | `src/zmqtt/_internal/request_response.py:131-148` | within one connection a request is claimed at most once |
| `RequestDispatcher.ResponsesComeFromCurrentClaims` | `src/zmqtt/_internal/request_response.py:150-157` | a future holds a response only from a claim of its own topic and correlation data, completed in the claim's generation, and only once |
| `DispatcherProgress.NobodyWaitsOutsideTheTable` | `src/zmqtt/_internal/request_response.py:62-231` | in every run a future that still waits belongs to a request in the table of pending ones, under its own key |
| `DispatcherProgress.ResponseArrivesExactlyIfWaiting` | `src/zmqtt/_internal/request_response.py:131-157` | from every claim in every run: the completed claim sets the response if and only if no new connection or shutdown came between and the request is still pending with its future waiting |
| `DispatcherProgress.RegisterMeaning` | `src/zmqtt/_internal/request_response.py:99-129` | registration succeeds exactly with a permit, an unused key and a connection; the request then waits unclaimed under its key and its topic has a readiness task |
| `DispatcherProgress.ClaimMeaning` | `src/zmqtt/_internal/request_response.py:131-148` | a message is claimed exactly when an unclaimed request with a waiting future has its topic and correlation data |
| `DispatcherProgress.CompleteMeaning` | `src/zmqtt/_internal/request_response.py:150-157` | a claim delivers exactly in its own generation, to a request that is still pending and waits |
| `DispatcherProgress.BindMeaning` | `src/zmqtt/_internal/request_response.py:84-91` | after `bind` the same requests wait, none of them is claimed, and no interest is ready |
| `DispatcherProgress.RestoreMeaning` | `src/zmqtt/_internal/request_response.py:93-97` | an interest with references and without a readiness task gets a new one, any other is left as it is |
| `DispatcherProgress.UnregisterMeaning` | `src/zmqtt/_internal/request_response.py:159-197` | the request leaves the table with its future settled; the topic goes with its last request, after its readiness task, and with its observer when that task had succeeded |
| `DispatcherProgress.CloseMeaning` | `src/zmqtt/_internal/request_response.py:182-197` | what follows the wait gives one permit back, and first removes the observer exactly when nobody joined the topic and it was ready |
| `DispatcherProgress.CancelledCloseMeaning` | `src/zmqtt/_internal/request_response.py:182-197` | a close that is cancelled gives its permit back at once, takes the topic with its last request and leaves the observer alone |
| `DispatcherProgress.ShutdownMeaning` | `src/zmqtt/_internal/request_response.py:199-213` | after `cancel_pending` nobody waits: every waiting future of the table failed, all its permits are back, and the generation is a new one |
| `DispatcherProgress.EveryCloseCanFinish` | `src/zmqtt/_internal/request_response.py:159-197` | in every run every suspended close can finish, however its readiness task ends, and gives exactly one permit back |
| `DispatcherObject.ResponseDispatcher.TryRegister` | `src/zmqtt/_internal/request_response.py:99-129` | waits, refuses a duplicate key or a missing connection, or registers the request, its reference and its readiness task |
| `DispatcherObject.ResponseDispatcher.StartClose` | `src/zmqtt/_internal/request_response.py:159-197` | `unregister` up to its suspension or its end |
| `DispatcherObject.ResponseDispatcher.ResumeClose` | `src/zmqtt/_internal/request_response.py:182-197` | what follows the wait, also when it fails or is cancelled |
| `DispatcherObject.ResponseDispatcher.BindConnection` | `src/zmqtt/_internal/request_response.py:84-91` | a new generation: every pending request is unclaimed and every interest has to become ready again |
| `DispatcherObject.ResponseDispatcher.Shutdown` | `src/zmqtt/_internal/request_response.py:199-213` | every waiting future fails and one permit is given back for each pending request |
| `DispatcherObject.ResponseDispatcher.TaskEnds` | `src/zmqtt/_internal/request_response.py:215-221` | a readiness task ends well or not |
| `DispatcherObject.ResponseDispatcher.RestoreInterest` | `src/zmqtt/_internal/request_response.py:93-97` | an interest with references is made ready again |
| `DispatcherObject.ResponseDispatcher.ClaimResponse` | `src/zmqtt/_internal/request_response.py:131-148` | reserves the waiter of exactly this key, or nothing |
| `DispatcherObject.ResponseDispatcher.CompleteClaim` | `src/zmqtt/_internal/request_response.py:150-157` | delivers to the future only what still belongs to this connection |
| `Wire.VarintRoundTrip` | `src/zmqtt/_internal/packets/_wire.py:9-45` | a variable byte integer can be written exactly from 0 to 268435455, reads back as itself from in front of any bytes, and takes its one to four bytes |
| `Wire.VarintIsPrefixStable` | `src/zmqtt/_internal/packets/_wire.py:26-45` | bytes after a complete integer do not change how it is read |
| `Wire.VarintPrefixIsTooShort` | `src/zmqtt/_internal/packets/_wire.py:26-45` | a strict prefix of an encoding is reported as unfinished |
| `Wire.FieldRoundTrip` | `src/zmqtt/_internal/packets/_wire.py:48-78` | strings and binary data can be written exactly up to 65535 bytes and read back from in front of any bytes |
| `Wire.FourRoundTrip` | `src/zmqtt/_internal/packets/properties.py:108-109` | a 32-bit integer in range reads back as itself, most significant byte first |
| `Wire.EncodeVarint` | `src/zmqtt/_internal/packets/_wire.py:9-23` | the loop writes seven bits at a time, least significant first |
| `Wire.DecodeVarint` | `src/zmqtt/_internal/packets/_wire.py:26-45` | the loop reads what the specification reads, with the same errors |
| `WireLayout.VarintIsBase128` | `src/zmqtt/_internal/packets/_wire.py:9-23` | the groups of seven bits stand for the number, and exactly the last byte has its top bit clear |
| `WireReading.VarintMeaning` | `src/zmqtt/_internal/packets/_wire.py:26-45` | of any bytes: the first one below 128 among four ends the number that the groups stand for; four that go on are an error, fewer are unfinished |
| `WireReading.FieldMeaning` | `src/zmqtt/_internal/packets/_wire.py:60-78` | of any bytes: two of length and as many as they say, or an error |
| `PropertyBlocks.PayloadRoundTrip` | `src/zmqtt/_internal/packets/properties.py:100-119` | every property is read by the wire type it was written with |
| `PropertyBlocks.ValueFits` | `src/zmqtt/_internal/packets/properties.py:100-119` | a property can be written exactly when its value fits its wire type |
| `PropertyBlocks.BlockRoundTrip` | `src/zmqtt/_internal/packets/properties.py:122-179` | a block reads back as its scalar properties and its user properties in order with repetitions, and its length prefix is counted |
| `WireLayout.WireTypesByTheStandard` | `src/zmqtt/_internal/packets/properties.py:49-97` | every property identifier has the data type of table 2-4, and every other identifier none |
| `WireLayout.SchemasByTheStandard` | `src/zmqtt/_internal/packets/properties.py:357-527` | the properties of every kind of packet are those that table 2-4 allows for it |
| `WireLayout.EntryByTheStandard` | `src/zmqtt/_internal/packets/properties.py:100-119` | a property is its identifier and its value in the format of its type |
| `WireReading.PropertyMeaning` | `src/zmqtt/_internal/packets/properties.py:130-179` | of any bytes: the identifier says how many bytes are its value and which, a repeated one replaces it, and an unassigned one is an error |
| `WireReading.TypedMeaning` | `src/zmqtt/_internal/packets/properties.py:530-720` | of any block: the fields of the packet's own kind, a flag being set by any byte but 0, all user properties, and None for a block without anything |
| `PropertyBlocks.EncodeProps` | `src/zmqtt/_internal/packets/properties.py:100-119` | the loops write the dictionary in its order, user properties pair by pair |
| `PropertyBlocks.EncodePropsBlock` | `src/zmqtt/_internal/packets/properties.py:122-127` | an empty dictionary is one zero byte, else the length and the properties |
| `PropertyBlocks.DecodePropsBlock` | `src/zmqtt/_internal/packets/properties.py:130-179` | the loop with its cursor reads what the specification reads, with the same errors |
| `TypedProperties.PropertiesRoundTrip` | `src/zmqtt/_internal/packets/properties.py:357-720` | the typed properties of all eleven kinds read back as they were, flags as flags, with no properties at all read as None, and use up their block exactly |
| `Codec.ConnectFlagsRoundTrip` | `src/zmqtt/_internal/packets/codec.py:90-101` | the packed CONNECT flags give every flag and the will QoS back |
| `Codec.ConnectRoundTrip` | `src/zmqtt/_internal/packets/codec.py:278-346` | a CONNECT body reads back in the version it names itself |
| `Codec.PublishRoundTrip` | `src/zmqtt/_internal/packets/codec.py:368-400` | a PUBLISH body reads back with its flags, its payload being the rest |
| `Codec.AckRoundTrip` | `src/zmqtt/_internal/packets/codec.py:146-158` | short and long forms of PUBACK, PUBREC, PUBREL and PUBCOMP read back |
| `Codec.OptionsRoundTrip` | `src/zmqtt/_internal/packets/codec.py:161-172` | subscription options are packed and unpacked without loss in version 5.0 and keep the QoS in 3.1.1 |
| `Codec.RequestsRoundTrip` | `src/zmqtt/_internal/packets/codec.py:439-467` | the list of filters with options of a SUBSCRIBE reads back in order |
| `Codec.FiltersRoundTrip` | `src/zmqtt/_internal/packets/codec.py:498-505` | the list of filters of an UNSUBSCRIBE reads back in order |
| `Framing.BodyRoundTrip` | `src/zmqtt/_internal/packets/codec.py:210-275` | the body of each of the fifteen packets reads back as its normal form in both versions |
| `Framing.RoundTrip` | `src/zmqtt/_internal/packets/codec.py:541-634` | every packet that can be encoded decodes to its normal form in front of any bytes and takes exactly its own bytes |
| `Framing.StrictPrefixIsIncomplete` | `src/zmqtt/_internal/packets/codec.py:552-578` | every strict prefix of an encoded packet is incomplete, never a packet or an error |
| `Framing.DecodeIsPrefixStable` | `src/zmqtt/_internal/packets/codec.py:541-634` | once `decode` decides, more bytes change neither the packet, nor its length, nor the failure |
| `Framing.DecodeMakesProgress` | `src/zmqtt/_internal/packets/codec.py:575-578` | every success takes at least two bytes and only bytes that are there |
| `Framing.EncodingsAreUnambiguous` | `src/zmqtt/_internal/packets/codec.py:81-83` | no encoding is the beginning of another one, and equal encodings have equal normal forms |
| `WireLayout.EncodingByTheStandard` | `src/zmqtt/_internal/packets/codec.py:81-275` | every encoding, byte by byte: the first byte that the standard gives for the packet, 0x62 for PUBREL, the length of the rest in groups of seven bits, and the body of its section |
| `WireLayout.BodyByTheStandard` | `src/zmqtt/_internal/packets/codec.py:90-207` | every body is the concatenation of the fields of its section, with their numbers, prefixes and flag bytes in arithmetic |
| `WireReading.FrameMeaning` | `src/zmqtt/_internal/packets/codec.py:541-578` | of any bytes with a complete length: nothing is decided before the whole frame is there, then exactly it is consumed; the packet is of the type in the upper half of the first byte, and type 0 is an error |
| `WireReading.LengthMeaning` | `src/zmqtt/_internal/packets/codec.py:552-566` | four length bytes that all go on are an error; fewer are incomplete |
| `WireReading.PublishMeaning` | `src/zmqtt/_internal/packets/codec.py:368-400` | of any body: QoS 3 is an error; else flags, topic, identifier and payload are where section 3.3 has them |
| `WireReading.ConnectHeadMeaning` | `src/zmqtt/_internal/packets/codec.py:278-304` | a CONNECT is read exactly when it begins with the protocol name, level 4 or 5 and no will QoS 3, with the error of the first that fails |
| `WireReading.OptionsMeaning` | `src/zmqtt/_internal/packets/codec.py:439-467` | of any byte of subscription options: each option is at its bits, QoS 3 and retain handling 3 are errors, and 3.1.1 looks at the QoS alone |
| `WireReading.RequestsMeaning` | `src/zmqtt/_internal/packets/codec.py:439-467` | of any body: the requests of a SUBSCRIBE are found only in bytes that list them to the end, each with options that say so |
| `WireReading.FiltersMeaning` | `src/zmqtt/_internal/packets/codec.py:498-505` | of any body: the filters of an UNSUBSCRIBE are found in exactly the bytes that list them to the end |
| `WireReading.ListsMeaning` | `src/zmqtt/_internal/packets/codec.py:421-525` | of any body of SUBSCRIBE, SUBACK, UNSUBSCRIBE and UNSUBACK: the identifier, in version 5.0 the properties, and the rest as the list; an UNSUBACK of version 3.1.1 has none |
| `WireReading.AckMeaning` | `src/zmqtt/_internal/packets/codec.py:403-418` | of any body: the identifier, and in version 5.0 the reason and the properties that are there |
| `WireReading.ShortBodiesMeaning` | `src/zmqtt/_internal/packets/codec.py:349-365` | of any body of CONNACK, DISCONNECT and AUTH: the fields that are there, and the defaults of those that are not |
| `Encodable.EncodesExactlyWhatFits` | `src/zmqtt/_internal/packets/codec.py:210-275` | `encode` succeeds exactly when every part of the packet fits its place and the body fits a frame |
| `Encodable.FittingPacketsRoundTrip` | `src/zmqtt/_internal/packets/codec.py:541-634` | every packet in range is encoded and comes back as its normal form |
| `CodecLoops.EncodeSubscribe` | `src/zmqtt/_internal/packets/codec.py:161-172` | the loop over subscriptions builds the specified body |
| `CodecLoops.EncodeUnsubscribe` | `src/zmqtt/_internal/packets/codec.py:183-189` | the loop over filters builds the specified body |
| `CodecLoops.DecodeSubscribe` | `src/zmqtt/_internal/packets/codec.py:421-467` | the cursor and the loop read what the specification reads, with the same errors |
| `CodecLoops.DecodeFilters` | `src/zmqtt/_internal/packets/codec.py:498-505` | the loop reads the filters to the end of the body, with the same errors |
| `CodecLoops.DecodeUnsubscribe` | `src/zmqtt/_internal/packets/codec.py:483-505` | the packet identifier, the properties and the loop, as specified |
| `CodecLoops.EncodeConnect` | `src/zmqtt/_internal/packets/codec.py:90-121` | header, flags, will and credentials, as specified |
| `CodecLoops.EncodePublish` | `src/zmqtt/_internal/packets/codec.py:132-143` | topic, identifier, properties and payload, as specified |
| `CodecLoops.DecodeConnect` | `src/zmqtt/_internal/packets/codec.py:278-346` | the cursor through header, will and credentials reads what the specification reads, with the same errors |
| `CodecLoops.DecodePublish` | `src/zmqtt/_internal/packets/codec.py:368-400` | the cursor through topic, identifier and properties, the rest being the payload, with the same errors |
| `CodecLoops.DecodeAck` | `src/zmqtt/_internal/packets/codec.py:403-418` | short and long forms, with the same errors |
| `CodecLoops.EncodeBody` | `src/zmqtt/_internal/packets/codec.py:210-275` | each packet to its own encoder, all of them as specified |
| `CodecLoops.EncodePacket` | `src/zmqtt/_internal/packets/codec.py:81-83` | the fixed header in front of the body that was built: the bytes that `EncodingByTheStandard` describes |
| `CodecLoops.DecodeBody` | `src/zmqtt/_internal/packets/codec.py:580-634` | each packet type to its own decoder, all of them as specified |
| `CodecLoops.DecodeFrame` | `src/zmqtt/_internal/packets/codec.py:541-634` | the remaining length read in place, the frame cut out and its body read, as specified |
| `Reader.ChunkingDoesNotMatter` | `src/zmqtt/_internal/packets/reader.py:21-31` | for every stream and every way to cut it: the same packets in the same order, the same bytes left over and the same first failure as in one feed |
| `Reader.ReadAllInTwo` | `src/zmqtt/_internal/packets/reader.py:24-31` | bytes fed after a partial read continue it; after a failure they change neither the packets nor the failure |
| `Reader.StreamRoundTrip` | `src/zmqtt/_internal/packets/reader.py:21-31` | a stream of encoded packets with an unfinished packet behind it reads as those packets in normal form |
| `Reader.PacketBuffer.Feed` | `src/zmqtt/_internal/packets/reader.py:21-22` | feeding between any two reads keeps what has been and will be yielded equal to a reading of the whole stream |
| `Reader.PacketBuffer.Next` | `src/zmqtt/_internal/packets/reader.py:24-31` | one turn of the iteration: a packet is cut off the buffer and yielded, or the buffer stays as it is |
| `Reader.PacketBuffer.Drain` | `src/zmqtt/_internal/packets/reader.py:24-31` | after a full iteration exactly the packets of everything fed so far have been yielded |

## Left out

- Sockets, TLS and the transport: a write either appends its packet to the wire or fails before it; a send that suspends afterwards can end well, fail or be cancelled.
- The client object, its reconnect loop and its configuration: a connection starts from fresh state, and `bind` is an event of the dispatcher.
- Time: the replay timeout is an expiry that may happen at any point, timeouts of callers other than of `ping` are cancellations, and the keepalive loop is not part of this model.
- The order in which asyncio wakes waiters of one lock or semaphore: a lock is free or held and a permit is there or not, so the results hold for every order.
- The suspension of `register` on its readiness task: a failure there is the `unregister` event at any later point, which allows more interleavings than the program has.
- UTF-8: strings on the wire are their encoded bytes, so an invalid encoding is not a decoding error here; topics are sequences of characters.
- The index inside the ownership protocol is the set of its keys; the trie behind it is proved separately.
- Response routing by the dispatcher inside inbound selection, and the selection itself: what selection finds for a message, and whether its queue is full, is chosen anew for every event; the index proves what it finds.
- Log output, error texts and reason-name tables; errors are kinds without text, and the checks of CONNACK codes are not part of this model.
- The check of the broker's maximum QoS before a publish: a one-branch refusal before any state changes.
- The decoder ignores the low four bits of the first byte except of PUBLISH, non-minimal lengths, bytes behind a complete body and properties of other kinds, as the code does; a property that runs past the end of its block is read too.
- AckProgress.NothingPendsAfterTheEnd: the future of a SUBSCRIBE or UNSUBSCRIBE that left before its answer stays as it is, since nobody waits on it any more.
- SubscriptionWithdrawal.GivenUpIsWithdrawn: not for filters whose call failed, was cancelled, was rejected or could not write; the program does not tell the broker there.
- InboundFlow.InboundPublishFlow.Clear: a drain that waits for the delivery lock when `clear()` comes is not modelled on the cleared buffer; every other drain finds no session.
- DrainOrder.DrainTakesInArrivalOrder: one drain, up to its end or its interruption; a message whose queue was full stays behind, and a later drain can put it after younger ones.
- DrainFifo.DrainIsFifoPerQueue: while the queue only fills, and for messages that selection keeps giving to it; a consumer or a new subscription in between can let a younger message pass.
- DrainOrder.DrainDeliversInArrivalOrder: when no delivery was interrupted before the drain; an interrupted message may have entered its queue already.
- DrainOrder.QueueOrderIsArrivalOrderExactly: for a broker that releases in the order of the PUBRECs, after the drain; released in another order, messages enter the queue in that order.
- SubscriptionOwnership.FreeFiltersAreOwned: not for a filter of a call that was handed another call's SUBACK, until it is withdrawn or accepted by its own; there it is false.
- SubscriptionOwnership.OwnershipIsLostExactlyByReuse: the calls whose answers are ahead of the owed SUBACK are taken to be waiting, and its codes not to reject the new call; with an answer ahead that no call waits for, the outcome depends on which calls take its identifier first.
