# Verified model of the iOS notification relay

This project models the firmware that relays iPhone notifications from Bluetooth
(Apple Notification Center Service, ANCS) to MQTT, and the Home Assistant
companion that receives them, and proves what keeps the relay correct.

| file | what it models |
|---|---|
| `Wrappers.dfy`, `Bytes.dfy`, `Words.dfy` | optional values, bytes, little-endian numbers, machine words |
| `AncsProtocol.dfy` | the result codes of the protocol layer |
| `RequestQueue.dfy` | the ring of requests with cancellation in place |
| `DataParser.dfy`, `AppParser.dfy` | the two byte-at-a-time parsers of Control Point answers |
| `Requests.dfy` | the two request builders |
| `ClientSession.dfy` | the client's shared state, one member per critical section |
| `ClientSystem.dfy` | callbacks, timers and worker around the bounded work queue, fenced by the generation |
| `ClientHistory.dfy`, `ClientDelivery.dfy` | the session told from its past, what the worker delivers while a session lasts |
| `ClientWorker.dfy` | the worker's two-stage request with retry, timeout and cancellation |
| `RequestFates.dfy` | what becomes of every request, told by an observer |
| `Crc32.dfy`, `ProvisionBlob.dfy`, `SlotStore.dfy` | the checksum, the stored structure, the two-slot store under failures |
| `Histories.dfy` | questions about the past, shared by the three histories |
| `Sha256.dfy`, `Sha256Answers.dfy`, `RelayPolicy.dfy` | the streaming digest and its known answers, relay ids, the dedupe ring, the relay decision |
| `Dedupe.dfy` | skipping recent ids, with a window that can be cleared |
| `RelayItems.dfy`, `MqttRelay.dfy` | ownership of relay items, the relay's threads and lifecycle operations |
| `RelayOrder.dfy`, `RelayOperations.dfy`, `RelayHistory.dfy` | the order of relayed items, the outcome of lifecycle operations, the relay's flags told from its past |
| `OutboxPoll.dfy`, `RelayQueue.dfy` | when a destroyed client is polled, when a deleted queue is sent to |
| `Utf8.dfy`, `JsonWriter.dfy`, `NotificationJson.dfy` | the JSON line of the serial sink |
| `Json.dfy`, `NotificationObject.dfy` | a JSON reader, and the line read back as an object |
| `RetryPolicy.dfy`, `ProvisioningState.dfy` | the clock-only Wi-Fi and provisioning policies |
| `ProvisioningSteps.dfy`, `ProvisioningHistory.dfy` | why the access point is open, told from the events |
| `AppResolver.dfy` | the cache of app names |
| `Delivery.dfy` | relay-id window, validation and delivery in Home Assistant |

Two forms recur. A structure that the source updates in place is a class whose
methods state their whole new state as a function of the old one; the properties
are lemmas about that function over every history. A protocol between threads is
a step function over the critical sections; a step that is not enabled changes
nothing, so a sequence of steps is any interleaving.

Times, random numbers, results of the radio stack, of the MQTT client and of the
non-volatile memory, and contents received from outside are parameters. An MQTT
client reports events only between its start and its stop, and stopping or
destroying it waits for the event handler under way. The memory of the
configuration store is the sequence of images that may be durable: a write adds
to it, a commit that succeeds leaves only the last, and a power loss picks any.

Some promises do not hold in every run. For each of them the exact condition is
proved:

- Cancelling a queued request keeps the others in order if and only if the ring does not wrap (`RequestQueue.CancelFiltersIffUnwrapped`).
- A request is written under the generation it was validated under if and only if no connection, disconnection or service change takes effect in between (`ClientSystem.WrittenInItsGenerationIff`).
- A save is atomic if and only if the repair before it loads nothing unexpected (`SlotStore.AtomicIffRepairIsHarmless`), and it settles the store if and only if the newest generation is below the maximum (`SlotStore.WrittenSettlesIffBelowMaximum`).
- A relayed notification is relayed again if and only if a reconfiguration came between or eight others were relayed (`RelayPolicy.RelayedAgainIff`).
- A destroyed MQTT client can be asked for its outbox if and only if a teardown meets a started client, a worker and permission to publish (`OutboxPoll.PolledLateIff`).
- A successful reconfiguration can lead to a send to a deleted queue if and only if an earlier one that failed left no queue (`RelayQueue.ReconfigurationFaultsIff`).
- The cache of app names evicts the least recently used one if and only if its age counter did not wrap (`AppResolver.VictimIsOldestIff`).

`dafny verify dfyconfig.toml` checks the whole project.

## Model

| member | source | states |
|---|---|---|
| RequestQueue.Queue.Push | components/ancs_protocol/ancs_protocol.c:560-572 | An event is appended as the newest, or refused exactly when sixteen are queued |
| RequestQueue.Queue.Pop | components/ancs_protocol/ancs_protocol.c:574-584 | The oldest event leaves, or none does exactly when the queue is empty |
| RequestQueue.Queue.CancelUid | components/ancs_protocol/ancs_protocol.c:586-607 | In every position no event with the id remains; on a queue that does not wrap the rest keep their order; `removed` iff the queue shrank |
| RequestQueue.Queue.Clear | components/ancs_protocol/ancs_protocol.c:609-612 | The queue is empty afterwards |
| RequestQueue.CanceledLeavesNone | components/ancs_protocol/ancs_protocol.c:592-605 | Compaction from slot 0 leaves no event with the cancelled id, wrapped or not |
| RequestQueue.CancelFiltersIffUnwrapped | components/ancs_protocol/ancs_protocol.c:592-605 | Cancelling is the order-preserving filter for every content and id if and only if head + count is at most the capacity |
| RequestQueue.WrappedLosesHead | components/ancs_protocol/ancs_protocol.c:592-605 | On a wrapped queue of distinct events, cancelling an id that is not queued changes the queue |
| DataParser.Parser.Feed | components/ancs_protocol/ancs_protocol.c:309-416 | Feeding a fragment in place leaves the parser, the notification and the result that the byte-by-byte machine gives |
| DataParser.Parser.Accept | components/ancs_protocol/ancs_protocol.c:326-411 | One byte in any state moves the machine by one step |
| DataParser.Parser.Finish | components/ancs_protocol/ancs_protocol.c:105-140 | The end of an attribute terminates its field, reports what does not fit, and completes the response when the mask is covered |
| DataParser.Parser.FailWith | components/ancs_protocol/ancs_protocol.c:34-45 | A failure puts the parser and the notification into the error state with the code |
| DataParser.FragmentationIndependent | components/ancs_protocol/ancs_protocol.c:309-416 | Feeding any partition of a byte string gives the final state and last result of feeding it whole, errors and trailing bytes included |
| DataParser.AnswerIsStored | components/ancs_protocol/ancs_protocol.c:61-140 | A response holding every masked attribute once, in any order, completes; each field then holds the first bytes of its value up to its capacity, and its truncated flag is set iff the value was longer |
| DataParser.CompleteIffAnswer | components/ancs_protocol/ancs_protocol.c:309-416 | The result is COMPLETE exactly for the bytes of such a response to the expected uid |
| DataParser.WrongCommandIsReported | components/ancs_protocol/ancs_protocol.c:327-330 | A first byte other than 0 is reported as a command error, whatever follows |
| DataParser.WrongUidIsReported | components/ancs_protocol/ancs_protocol.c:336-346 | The uid of another notification is reported as a mismatch, whatever follows |
| DataParser.WrongAttributeIsReported | components/ancs_protocol/ancs_protocol.c:348-356 | After any correct beginning, an unknown id and an unwanted or repeated one are reported with their own codes |
| DataParser.LongAttributeIsReported | components/ancs_protocol/ancs_protocol.c:116-124 | After any correct beginning, a value too long for a field without a truncated flag is an overflow |
| DataParser.TrailingByteIsReported | components/ancs_protocol/ancs_protocol.c:370-376 | A byte after the last attribute turns completion into a sequence error |
| AppParser.Parser.Feed | components/ancs_protocol/ancs_protocol.c:455-551 | Feeding a fragment of an app response in place leaves what the byte-by-byte machine gives |
| AppParser.Parser.Accept | components/ancs_protocol/ancs_protocol.c:471-546 | One byte in any state moves the machine by one step |
| AppParser.Parser.SameText | components/ancs_protocol/ancs_protocol.c:484-485 | The comparison loop answers whether the two terminated texts are equal |
| AppParser.FragmentationIndependent | components/ancs_protocol/ancs_protocol.c:455-551 | Feeding any partition gives the final state and last result of feeding the bytes whole |
| AppParser.AnswerIsStored | components/ancs_protocol/ancs_protocol.c:418-436 | The answer for the asked app stores the first bytes of its display name and whether it was cut |
| AppParser.CompleteIffAnswer | components/ancs_protocol/ancs_protocol.c:455-551 | The result is COMPLETE exactly for the bytes of an answer for the asked app |
| AppParser.WrongAppIsReported | components/ancs_protocol/ancs_protocol.c:481-490 | The answer for another app is reported as a mismatch |
| AppParser.TrailingByteIsReported | components/ancs_protocol/ancs_protocol.c:534-541 | A byte after the display name turns completion into a sequence error |
| Requests.BuildNotificationRequest | components/ancs_protocol/ancs_protocol.c:217-258 | The request is written if the buffer has room for it, else nothing is |
| Requests.BuildAppRequest | components/ancs_protocol/ancs_protocol.c:260-289 | The request names the app up to its terminator; empty, long and unterminated ids are refused |
| Requests.RequestReadsBack | components/ancs_protocol/ancs_protocol.c:226-257 | A reader of the request format gets back the uid and the six wanted attributes with their limits |
| Requests.ObedientAnswerIsWhole | components/ancs_protocol/ancs_protocol.c:217-258 | An answer that keeps to the limits of the request completes the parser and stores every value whole |
| Requests.ObedientAppAnswerIsWhole | components/ancs_protocol/ancs_protocol.c:260-289 | An answer to the request for an app completes the parser that waits for that app, and a display name within the limit is stored whole and not marked as cut |
| ClientSession.Session.HandleConnect | components/ancs_client/ancs_client.c:1692-1718 | A peer is accepted iff none is connected, and starts a clean session under the next generation with both deadlines armed |
| ClientSession.Session.ResetConnection | components/ancs_client/ancs_client.c:1403-1420 | Nothing of the session survives a disconnect but its counters, under the next generation |
| ClientSession.Session.HandleServiceChanged | components/ancs_client/ancs_client.c:1428-1446 | An open connection forgets its service under the next generation and owes a reset item with it |
| ClientSession.Session.HandleAuthentication | components/ancs_client/ancs_client.c:1544-1606 | Success records the encrypted link and arms the discovery deadline; failure makes the link close |
| ClientSession.Session.BeginDiscovery | components/ancs_client/ancs_client.c:1149-1173 | A search starts iff the link is open, secured and negotiated and none is under way, and forgets the handles of an earlier one |
| ClientSession.Session.HandleDescriptorWritten | components/ancs_client/ancs_client.c:1903-1960 | The last subscription makes the session ready iff every earlier stage holds, and counts a session iff readiness rises |
| ClientSession.Session.CheckConnectionDeadline | components/ancs_client/ancs_client.c:973-1000 | An overdue stage closes the link, and the close command is due at most three times, three seconds apart |
| ClientSession.Session.ScheduleDiscoveryRetry | components/ancs_client/ancs_client.c:1081-1104 | Discovery is retried after 2 and then 5 seconds; after that the stage deadline is due at once |
| ClientSession.Session.RecoverStream | components/ancs_client/ancs_client.c:620-633 | Recovering the stream ends readiness and disconnects an open link |
| ClientSession.ReadinessIsEarnedAlways | components/ancs_client/ancs_client.c:475-491 | In every interleaving of critical sections ready implies connected, authenticated, encrypted, service found and both sources subscribed, and the session id is the number of rises of readiness |
| ClientSession.ReadyOnlyAfterAllStages | components/ancs_client/ancs_client.c:1944-1951 | Readiness rises in one critical section only, and only if all earlier stages hold at that moment |
| ClientSession.SectionAdvancesGeneration | components/ancs_client/ancs_client.c:1403-1449 | A generation starts unready, and a connection is lost only together with its generation |
| ClientSession.SectionCountsSessions | components/ancs_client/ancs_client.c:1944-1951 | Every critical section changes the session id exactly by the rise of readiness |
| ClientSession.UnreadyConnectionsAreClosed | components/ancs_client/ancs_client.c:973-1000 | In every interleaving a connection that is not ready 90 seconds after its preparation began is closed by the deadline check; close requests stay within three and discovery retries within two |
| ClientSession.CloseIsAskedIff | components/ancs_client/ancs_client.c:973-1000 | In every interleaving a deadline check asks for the link to be closed if and only if it is closing or overdue, fewer than three requests were made and the last is three seconds ago |
| ClientHistory.ReadyIff | components/ancs_client/ancs_client.c:1903-1960 | In every interleaving the session is ready if and only if the last subscription succeeded after every earlier stage was passed on this link, and nothing has ended readiness since |
| ClientHistory.StagesIff | components/ancs_client/ancs_client.c:1403-1606 | In every interleaving each stage of the link is what happened since the link began: connecting, authenticating, negotiating, searching, finding and subscribing, and what takes each back |
| ClientHistory.GenerationCounts | components/ancs_client/ancs_client.c:1403-1449 | In every interleaving the generation is the number of connections, disconnections and changes of services of an open link |
| ClientHistory.RetryIsDueAfter | components/ancs_client/ancs_client.c:1081-1104 | In every interleaving the first failed discovery is retried two seconds later and the second five, and after the third the link is overdue at once |
| ClientSystem.FragmentsStayInTheirGeneration | components/ancs_client/ancs_client.c:857-947 | In every interleaving, with items dropped when the queue is full, a fragment received under one generation never reaches the parser of a request issued under another |
| ClientSystem.RequestsAreValidated | components/ancs_client/ancs_client.c:653-670 | In every interleaving a request that was written had been validated under the generation its event was received under, and was written under that generation or a later one |
| ClientSystem.WrittenInItsGenerationIff | components/ancs_client/ancs_client.c:653-690 | The write is not checked again: it falls under the generation of its event if and only if no connection, disconnection or service change takes effect between the validation and the write |
| ClientSystem.RequestCanBeWrittenLate | components/ancs_client/ancs_client.c:653-690 | In a run where the peer reconnects between the two, the request of generation 1 is written under generation 3 |
| ClientSystem.StepKeepsInvariant | components/ancs_client/ancs_client.c:1403-1449 | Every step keeps the fence: a stale active request is followed by a reset or an item of another generation |
| ClientDelivery.RequestIsServed | components/ancs_client/ancs_client.c:895-950 | From any state with an active request of the current generation, and through every interleaving in which the generation stays, no reset is processed and the request does not end: the request and, without removals, the order of the pending events survive, and each fragment that was queued is fed to it exactly once and in order |
| ClientDelivery.EventsBeginInOrder | components/ancs_client/ancs_client.c:788-947 | In every interleaving in which the generation stays and every event is queued, the requests begin in the order in which their events were queued, each once |
| ClientDelivery.ReceivedIsQueuedIff | components/ancs_client/ancs_client.c:1996-2021 | What a callback receives is queued under the generation it arrived in if and only if the link is open and fewer than 24 items wait |
| ClientWorker.Worker.StartNext | components/ancs_client/ancs_client.c:788-808 | The oldest queued event becomes the active request iff none is active, the session is ready and one is queued |
| ClientWorker.Worker.ProcessFragment | components/ancs_client/ancs_client.c:857-889 | A complete answer leads to the next stage or publication, an error to retry or failure, and a cancelled request is only drained |
| ClientWorker.Worker.ProcessWriteResult | components/ancs_client/ancs_client.c:921-928 | A failed write drains a cancelled request and retries any other |
| ClientWorker.Worker.CheckRequestDeadline | components/ancs_client/ancs_client.c:937-945 | An expired request is drained if cancelled, else retried or given up, and giving it up for good recovers the data stream of the session |
| ClientWorker.Worker.ProcessEvent | components/ancs_client/ancs_client.c:825-855 | Duplicates are suppressed, a removal leaves no queued event of its notification and cancels its active request, any other event is queued or overflows a full queue |
| ClientWorker.Worker.IsDuplicate | components/ancs_client/ancs_client.c:810-823 | An event is a duplicate iff it equals the previous one within 500 ms |
| ClientWorker.Worker.RetryOrFinish | components/ancs_client/ancs_client.c:704-744 | One retry per stage; an unready session abandons the request, the optional second stage never fails a notification, and the stream is recovered exactly where the caller asks for it and the request ends |
| ClientWorker.Worker.ResetSession | components/ancs_client/ancs_client.c:519-533 | A reset leaves no queued event and no active request |
| ClientWorker.EveryRequestIsAccounted | components/ancs_client/ancs_client.c:704-808 | Over every history each request taken from the queue is active or over, was written at most twice per stage, published at most once, and not at all if cancelled |
| ClientWorker.PastIsFinal | components/ancs_client/ancs_client.c:595-618 | Once over, a request is never written or published again |
| ClientWorker.ExpirySpendsPatience | components/ancs_client/ancs_client.c:937-945 | Every expired deadline uses up part of a budget of four that nothing restores, so four of them end any request |
| ClientWorker.ExpiryRecoversIff | components/ancs_client/ancs_client.c:937-945 | An expired deadline recovers the data stream exactly when it ends the request and the session was not lost before |
| RequestFates.RequestsEndAsObserved | components/ancs_client/ancs_client.c:704-808 | Over every history a past request was published, once, if and only if it was answered completely or only its app name was given up, and reported as failed if and only if its attributes were given up; every other one was cancelled or lost its session; its writes are those the observer counted, for the app name only where that was asked for |
| RequestFates.WaitsAsObserved | components/ancs_client/ancs_client.c:595-702 | Over every history what the worker waits for, for which event and until when is what an observer of its inputs and writes says |
| Crc32.Update | components/provision_store/provision_store.c:68-79 | The bit-by-bit loop computes the checksum of the whole byte string |
| Crc32.MaskedBitStep | components/provision_store/provision_store.c:74-75 | The mask selects the polynomial exactly when a one falls out |
| Crc32.CheckValue | components/provision_store/provision_store.c:68-79 | The checksum of "123456789" is the published check value 0xCBF43926 |
| Crc32.BitLoopIsTableDriven | components/provision_store/provision_store.c:68-79 | The bit loop computes what the table-driven code of section 8 of RFC 1952 computes |
| Crc32.CrcComposes | components/provision_store/provision_store.c:68-79 | The checksum of a concatenation continues the checksum of its first part |
| Crc32.ByteChangeIsDetected | components/provision_store/provision_store.c:68-79 | Messages that differ in one byte have different checksums |
| Crc32.BurstIsDetected | components/provision_store/provision_store.c:68-79 | Messages that differ only within four consecutive bytes have different checksums |
| ProvisionBlob.BoundedLength | components/provision_store/provision_store.c:81-88 | The length loop stops inside the field exactly on terminated text, at its first zero byte |
| ProvisionBlob.AcceptedIff | components/provision_store/provision_store.c:100-134 | A configuration is accepted if and only if its schema is known, its network, host, client id, topic and port are there, every text ends within its field, and an encrypted connection has its certificate |
| ProvisionBlob.FieldsBegin | components/provision_store/include/provision_store.h:35-47 | The schema, the network and its password, the host and the port lie at their offsets in the stored structure |
| ProvisionBlob.FieldsEnd | components/provision_store/include/provision_store.h:35-47 | The user, the password, the encryption flag, the certificate, the client id and the topic lie at their offsets |
| ProvisionBlob.EncodeBlob | components/provision_store/provision_store.c:184-201 | A configuration is sealed with its checksum iff it is valid |
| ProvisionBlob.DecodeBlob | components/provision_store/provision_store.c:229-272 | Length, checksum, schema and validity are checked in this order |
| ProvisionBlob.DecodeEncode | components/provision_store/provision_store.c:184-272 | A saved configuration reads back with its generation |
| ProvisionBlob.EncodeDecode | components/provision_store/provision_store.c:184-272 | Whatever decodes encodes to the very bytes that were read, so only saved slots decode |
| ProvisionBlob.ByteChangeFailsCrc | components/provision_store/provision_store.c:244-252 | Changing any single byte of a stored slot makes reading it fail on the checksum |
| ProvisionBlob.BurstFailsCrc | components/provision_store/provision_store.c:244-252 | So does any change within four consecutive bytes outside the checksum field |
| SlotStore.Memory.ReadBest | components/provision_store/provision_store.c:326-338 | The best slot is the decodable one with the highest generation, slot B on a tie |
| SlotStore.Memory.SaveAtomic | components/provision_store/provision_store.c:556-652 | The save performs repair, slot write, read-back and activation in order and stops at the first operation that does not succeed |
| SlotStore.Memory.WriteSlot | components/provision_store/provision_store.c:603-648 | The inactive slot is written, committed, read back and made active, stopping at the first failure |
| SlotStore.SaveOutcomes | components/provision_store/provision_store.c:556-652 | Whatever fails, the memory can only hold an image from before, the repaired marker, a torn slot, the new slot, or the new slot made active; success leaves exactly the last |
| SlotStore.SaveSucceedsIff | components/provision_store/provision_store.c:556-652 | While nothing fails a save reports success if and only if the configuration is acceptable and the slot in use is not of the last generation |
| SlotStore.SaveIsCrashAtomic | components/provision_store/provision_store.c:556-652 | From a settled store, stopping or failing at any operation leaves loading the old or the new configuration, and success has settled the new one |
| SlotStore.AtomicIffRepairIsHarmless | components/provision_store/provision_store.c:585-601 | From any store, a save is atomic for every way of failing if and only if repairing the marker loads the same as before or the new configuration |
| SlotStore.RepairCanHarm | components/provision_store/provision_store.c:585-601 | A run reaches such a store: a second save loses power before its marker, the first configuration is loaded, and a third save that loses power at once makes the second one live |
| SlotStore.WrittenSettlesIffBelowMaximum | components/provision_store/provision_store.c:581-609 | A completed save settles the store if and only if the newest generation was below the maximum |
| SlotStore.MaximumSlipsThrough | components/provision_store/provision_store.c:581-584 | A run of saves reaches a store whose newest slot is at the maximum while the marker names the other one; the next save passes the check and reports success |
| SlotStore.MaximumForgetsSave | components/provision_store/provision_store.c:581-601 | After such a save, which reports success, even a rejected next save makes loading return the older configuration |
| SlotStore.RunsAreSound | components/provision_store/provision_store.c:556-652 | Over every run of fewer than 2^32 saves and power losses two decodable slots are exactly one generation apart and hold only submitted configurations |
| SlotStore.NeverLost | components/provision_store/provision_store.c:321-360 | In every run of fewer than 2^32 saves and power losses, once a save reported success every image that may be durable loads its configuration or one submitted later |
| Sha256.Hasher.Transform | components/relay_policy/relay_policy.c:55-105 | The state becomes the compression of section 6.2.2 of FIPS 180-4 of the buffered block |
| Sha256.ExpandSchedule | components/relay_policy/relay_policy.c:57-71 | The 64 words are the message schedule of section 6.2.2 |
| Sha256.Hasher.Update | components/relay_policy/relay_policy.c:121-139 | Bytes are absorbed block by block, whatever was buffered, and counted in bits modulo 2^64 |
| Sha256.Hasher.Finish | components/relay_policy/relay_policy.c:141-160 | The padding loop ends and the result is the one-shot digest of the message, padded as in section 5.1.1 |
| Sha256.SplitIndependent | components/relay_policy/relay_policy.c:121-139 | Every way of cutting a message into updates leads to the context of the whole message |
| Sha256Answers.DigestOfAbc | components/relay_policy/relay_policy.c:55-160 | The digest of "abc" is the one of the standard: ba7816bf 8f01cfea 414140de 5dae2223 b00361a3 96177a9c b410ff61 f20015ad |
| Sha256Answers.DigestOfLetters | components/relay_policy/relay_policy.c:55-160 | The digest of 64 letters "a", a message of two blocks, is ffe054fe 7ae0cb6d c65c3af9 b61d5209 f439851d b43d0ba5 997337df 154668eb |
| Sha256Answers.ConstantsAreRoots | components/relay_policy/relay_policy.c:15-119 | The round constants are the first 32 bits of the fractional parts of the cube roots of the first 64 primes, the initial hash value those of the square roots of the first 8 (sections 4.2.2 and 5.3.3 of FIPS 180-4) |
| RelayPolicy.BuildId | components/relay_policy/relay_policy.c:252-281 | The id is the hexadecimal form of the first 16 bytes of the digest of the nine fields |
| RelayPolicy.PreimageReads | components/relay_policy/relay_policy.c:262-270 | A reader of four little-endian numbers and five terminated texts gets back the nonce, the session, the notification, the event, the app, the title, the subtitle, the message and the date |
| RelayPolicy.HexReads | components/relay_policy/relay_policy.c:272-275 | A reader of two-digit hexadecimal numbers gets back the bytes of the digest |
| RelayPolicy.PreimageIsInjective | components/relay_policy/relay_policy.c:252-272 | The byte string hashed for a relay id determines all nine of its fields |
| RelayPolicy.HexIsInjective | components/relay_policy/relay_policy.c:275-278 | Different digest bytes give different ids |
| RelayPolicy.RecentCache.Contains | components/relay_policy/relay_policy.c:186-198 | An id is found iff it is among the last eight stored |
| RelayPolicy.RecentCache.Store | components/relay_policy/relay_policy.c:200-211 | The id becomes the newest of the last eight |
| RelayPolicy.RecentCache.Decide | components/relay_policy/relay_policy.c:213-250 | The first rule that applies decides, duplicates last |
| RelayPolicy.Decided | components/relay_policy/relay_policy.c:213-250 | Exactly complete, new, live notifications of other apps are relayed, while connected, unless their id is among the last eight |
| RelayPolicy.RecentCache.Observe | components/mqtt_relay/mqtt_relay.c:2713-2739 | The observer relays iff the policy publishes and the queue has room, stores exactly the relayed id, and keeps stored ids apart |
| RelayPolicy.RecentCache.Clear | components/relay_policy/relay_policy.c:283-288 | Initialising the ring again forgets what it holds |
| RelayPolicy.NineInARowDiffer | components/relay_policy/relay_policy.c:186-211 | Over every run of observations and reconfigurations any nine consecutive relayed notifications have distinct ids, unless a reconfiguration cleared the ring between two of them |
| RelayPolicy.RelayedAgainIff | components/mqtt_relay/mqtt_relay.c:2580-2585 | A relayed notification observed again, whose id was not relayed since, is relayed again if and only if a reconfiguration came between or at least eight others were relayed |
| RelayItems.Lists.Admit | components/mqtt_relay/mqtt_relay.c:2713-2740 | The observer either queues its item and counts it accepted, or frees it |
| RelayItems.Lists.Take | components/mqtt_relay/mqtt_relay.c:1867-1881 | The worker takes the oldest queued item into its hand |
| RelayItems.Lists.Settle | components/mqtt_relay/mqtt_relay.c:1888-1895 | The held item waits for its acknowledgement iff it was sent and the connection stands, else it is freed |
| RelayItems.Lists.HandlePublished | components/mqtt_relay/mqtt_relay.c:1434-1471 | Exactly the first waiting item with the message id is counted and freed |
| RelayItems.Lists.FreeAll | components/mqtt_relay/mqtt_relay.c:1392-1411 | All queued and waiting items are freed, each once |
| RelayItems.EachItemInOnePlace | components/mqtt_relay/mqtt_relay.c:1381-1390 | Conservation item by item: in one place, freed at most once, acknowledged and held ones within the accepted |
| RelayOrder.TakenInOrder | components/mqtt_relay/mqtt_relay.c:1867-1881 | In every interleaving the items the worker takes are the accepted ones in the order of acceptance, without those dropped from the queue, and the queued ones are the last accepted |
| RelayOrder.SentItemWaitsIff | components/mqtt_relay/mqtt_relay.c:1888-1895 | In every interleaving an item that was sent waits for its acknowledgement if and only if it got a message id and the connection stands, else it is freed |
| RelayOrder.AcknowledgementIsCountedIff | components/mqtt_relay/mqtt_relay.c:1434-1471 | An acknowledgement is counted if and only if an item waits for it, and frees one that does |
| MqttRelay.ItemsAreConserved | components/mqtt_relay/mqtt_relay.c:1867-1897 | In every interleaving of observers, worker, acknowledgements, disconnects and teardown every item built is in exactly one place, and acknowledged + queued + held + waiting items are at most the accepted ones |
| MqttRelay.DeinitLeavesNone | components/mqtt_relay/mqtt_relay.c:2395-2437 | Teardown leaves no item queued, held or waiting |
| MqttRelay.StoppedOnlyWhenIdle | components/mqtt_relay/mqtt_relay.c:2353-2403 | In every interleaving the client is stopped or destroyed only while no thread is inside a publish or enqueue call on it and none can enter |
| MqttRelay.NoCallAfterDestroy | components/mqtt_relay/mqtt_relay.c:1491-1552 | In every interleaving no thread is inside a publish or enqueue call on a destroyed client |
| MqttRelay.StepKeepsInvariant | components/mqtt_relay/mqtt_relay.c:1491-1565 | Every critical section of every thread keeps the fence, the client pointer, the worker and the items sound |
| MqttRelay.ProgramFits | components/mqtt_relay/mqtt_relay.c:2295-2600 | Starting, stopping, teardown and every course of a reconfiguration establish what their later statements rely on |
| MqttRelay.DeletedQueueIsEmpty | components/mqtt_relay/mqtt_relay.c:2009-2031 | The queue is deleted only when it is empty and nobody can send to it |
| RelayOperations.OperationLeaves | components/mqtt_relay/mqtt_relay.c:2295-2600 | However the other threads interleave with it, an operation that has ended has its outcome: a start permits publishing and has a worker, a stop forbids and keeps the client, a teardown or a reconfiguration without a running client leaves nothing, a successful one leaves a welcoming client, started exactly if Wi-Fi was up |
| RelayHistory.ConnectionIff | components/mqtt_relay/mqtt_relay.c:2067-2110 | In every interleaving the relay is connected, owes a refresh and has Wi-Fi exactly by the last report or statement that says so |
| RelayHistory.PermissionIff | components/mqtt_relay/mqtt_relay.c:2295-2600 | In every interleaving there is a client, observers are welcome, publishing is permitted and the client runs exactly by the last statement that gave or took it |
| RelayHistory.CallBeginsIff | components/mqtt_relay/mqtt_relay.c:1491-1520 | In every interleaving a publish call begins if and only if there is a client and publishing is permitted |
| RelayHistory.ObserverIsServedIff | components/mqtt_relay/mqtt_relay.c:2677-2760 | In every interleaving an observer builds an item if and only if the relay is open and the policy publishes, and it is accepted if and only if both still hold and fewer than eight are queued, else freed |
| OutboxPoll.PollsAreSafe | components/mqtt_relay/mqtt_relay.c:1567-1590 | In every interleaving in which no connection is reported between the cut of a teardown and its ban on publishing, the worker never asks a destroyed client for its outbox |
| OutboxPoll.PolledLateIff | components/mqtt_relay/mqtt_relay.c:2395-2403 | For every state an operation can begin in: a client it destroys can be asked for its outbox afterwards if and only if the operation is a teardown, the client is started, publishing is allowed and there is a worker; a reconfiguration silences the relay first |
| OutboxPoll.StartedRelayIsRaced | components/mqtt_relay/mqtt_relay.c:1567-1590 | Initialising and starting a relay reaches such a state, so its teardown can be caught |
| RelayQueue.NoFaultWhileQueueKept | components/mqtt_relay/mqtt_relay.c:2713-2737 | In every interleaving no item is sent to a deleted queue as long as no reconfiguration begins without one |
| RelayQueue.ReconfigurationFaultsIff | components/mqtt_relay/mqtt_relay.c:2575-2600 | For every state a reconfiguration can begin in: one that succeeds lets observers send to a deleted queue, in some continuation that only starts and stops the relay, if and only if there is no queue when it begins |
| RelayQueue.FailedReconfigurationLosesQueue | components/mqtt_relay/mqtt_relay.c:2009-2031 | The run from initialisation through a reconfiguration that cannot make a client reaches such a state |
| Utf8.SequenceIsExact | components/notification_sink/notification_sink_serial.c:69-101 | The test answers the length of the encoded scalar value at the front (section 3 of RFC 3629), and 0 exactly when there is none |
| Utf8.SanitizedIffValid | components/notification_sink/notification_sink_serial.c:103-158 | Replacing bytes that start no sequence changes nothing exactly on valid UTF-8 |
| JsonWriter.Writer.Append | components/notification_sink/notification_sink_serial.c:21-67 | Bytes and a terminating zero are appended, or the writer fails for want of room for both |
| JsonWriter.Writer.WriteString | components/notification_sink/notification_sink_serial.c:103-158 | The text is written as a JSON string |
| JsonWriter.Quoted | components/notification_sink/notification_sink_serial.c:103-158 | A string takes at most six times its length and two bytes |
| JsonWriter.QuotedReads | components/notification_sink/notification_sink_serial.c:103-158 | A reader of JSON strings (section 7 of RFC 8259) gets back the text with each byte that starts no valid sequence replaced by U+FFFD |
| JsonWriter.ReadsBackIffValid | components/notification_sink/notification_sink_serial.c:103-158 | The text itself is read back exactly if it is valid UTF-8 |
| NotificationJson.FormatJson | components/notification_sink/notification_sink_serial.c:201-280 | Formatting succeeds exactly if the line and its zero fit, and the buffer then holds the line |
| NotificationJson.DocumentFits | components/notification_sink/notification_sink_serial.c:313-331 | The line and its zero fit into 2048 bytes plus six times the length of the texts |
| NotificationJson.Publish | components/notification_sink/notification_sink_serial.c:313-346 | Publishing never fails for want of room |
| Json.PrintedReads | components/notification_sink/notification_sink_serial.c:103-158 | A reader of JSON values (RFC 8259) gets back every printed value of strings, numbers, literals and objects, texts cleaned, and what follows it |
| NotificationObject.LineReadsBack | components/notification_sink/notification_sink_serial.c:201-280 | A JSON reader gets back the object the line stands for with all its members in order, each text cleaned, and nothing is left over |
| NotificationObject.LineReadsBackIffWellEncoded | components/notification_sink/notification_sink_serial.c:201-280 | Nothing is lost exactly if every text is valid UTF-8 |
| RetryPolicy.Policy.Start | components/provisioning/provisioning_retry.c:11-19 | A start with a generation enables the policy and makes the first attempt due at once |
| RetryPolicy.Policy.Connect | components/provisioning/provisioning_retry.c:39-50 | A connection ends the attempt and the outage |
| RetryPolicy.Policy.Fail | components/provisioning/provisioning_retry.c:52-87 | A lost connection is retried at once; a failed attempt backs off |
| RetryPolicy.Policy.Poll | components/provisioning/provisioning_retry.c:89-123 | A poll opens the access point, gives up and begins attempts as they are due |
| RetryPolicy.TriesAtOnce | components/provisioning/provisioning_retry.c:52-72 | Over every history a start and the loss of a connection are followed by an attempt at the next poll, without delay |
| RetryPolicy.PollActsIff | components/provisioning/provisioning_retry.c:89-123 | Over every history a poll asks for the access point if and only if the connection is out for 45 seconds and it was not asked for in this outage, and gives an attempt up if and only if it lasts 20 seconds or time is over; while off, paused or connected it does nothing |
| RetryPolicy.NeverTwoAttempts | components/provisioning/provisioning_retry.c:89-123 | Over every history under monotone time an attempt begins only while none is under way |
| RetryPolicy.AbortAndConnectIff | components/provisioning/provisioning_retry.c:109-120 | Giving up and beginning an attempt fall into one poll if and only if time is at its maximum |
| RetryPolicy.NextAttemptIsDue | components/provisioning/provisioning_retry.c:52-87 | Over every history the attempt after the n-th failure in a row is due after 5, 15, 30 and then 60 seconds, 300 after three authentication failures, plus a tenth or at most 5 seconds |
| RetryPolicy.NeverStopsTrying | components/provisioning/provisioning_retry.c:125-134 | Over every history an enabled offline policy between attempts begins the next one when polled after the remaining time, at most 305 seconds on |
| ProvisioningState.ConnectedIsConsistent | components/provisioning/provisioning_state.c:42-165 | Over every history a broker connection implies Wi-Fi and no need of recovery, and the required networks follow from the state |
| ProvisioningHistory.AccessPointIff | components/provisioning/provisioning_state.c:1-165 | Over every history the access point is required if and only if there is no valid configuration, the recovery window is open, or an event called for recovery (a Wi-Fi timeout, a failure or refusal of unproven settings, a streak of ten minutes) and none has withdrawn it |
| ProvisioningHistory.ConnectionsIff | components/provisioning/provisioning_state.c:1-165 | Over every history the connections, the proof of the settings and the bond are what the events tell of |
| ProvisioningState.RecoveryNeedsTenMinutes | components/provisioning/provisioning_state.c:110-129 | Recovery from refusals begins only with a refusal at least ten minutes after an earlier one of its streak, with no boot, connection over Wi-Fi or unpaired failure between |
| ProvisioningState.ApNeedsTenMinutes | components/provisioning/provisioning_state.c:90-129 | While proven settings meet only broker failures, refusals and connections, the access point opens only after such a refusal |
| ProvisioningState.TenMinutesOpenAp | components/provisioning/provisioning_state.c:110-129 | The refusal that completes ten minutes over Wi-Fi opens the access point, and a failure right after it keeps it open |
| AppResolver.Resolver.FindEntry | components/ancs_app_resolver/ancs_app_resolver.c:37-47 | The first slot in use with the id is found |
| AppResolver.Resolver.ReplacementEntry | components/ancs_app_resolver/ancs_app_resolver.c:49-70 | The slot of the id, else the first free one, else the first of the oldest |
| AppResolver.Resolver.Begin | components/ancs_app_resolver/ancs_app_resolver.c:79-102 | A hit returns the stored name and becomes the most recent; a miss asks for the name |
| AppResolver.Resolver.Complete | components/ancs_app_resolver/ancs_app_resolver.c:104-129 | A bounded name that fits is remembered as the most recent |
| AppResolver.RunsRefine | components/ancs_app_resolver/ancs_app_resolver.c:79-129 | Over every history of fewer than 2^32 hits and names remembered, the slots are the recency list of sixteen apps and answer as it does |
| AppResolver.HitReturnsLastName | components/ancs_app_resolver/ancs_app_resolver.c:79-102 | Over every history, wrapped or not, a hit returns the name last remembered for the id |
| AppResolver.ListIsMostRecent | components/ancs_app_resolver/ancs_app_resolver.c:49-129 | Over every history of fewer than 2^32 hits and names remembered the slots hold the sixteen most recently used apps |
| AppResolver.RememberedIsFound | components/ancs_app_resolver/ancs_app_resolver.c:79-129 | A name and an id within their limits are remembered and found by the next look-up with room for the name |
| AppResolver.BegunRefines | components/ancs_app_resolver/ancs_app_resolver.c:79-102 | Until the age counter wraps a look-up is a look-up in a recency list |
| AppResolver.CompletedRefines | components/ancs_app_resolver/ancs_app_resolver.c:104-129 | Until the age counter wraps remembering moves the id to the front and evicts exactly the least recently used one of sixteen |
| AppResolver.ListIsBounded | components/ancs_app_resolver/ancs_app_resolver.c:37-70 | The list holds at most sixteen apps, each once |
| AppResolver.VictimIsOldestIff | components/ancs_app_resolver/ancs_app_resolver.c:60-69 | In a full cache, after a hit or a name remembered, the next to be evicted is the least recently used one if and only if the age counter did not wrap |
| AppResolver.WrapIsReached | components/ancs_app_resolver/ancs_app_resolver.c:60-69 | A history of 2^32 - 1 hits and names remembered reaches the last age in a full cache; one more hit makes the app just looked up the next to be evicted |
| Delivery.RelayIdWindow.Contains | custom_components/ha_ios_ancs/notification.py:23-24 | An id is contained iff it is among the last ids taken in |
| Delivery.RelayIdWindow.Add | custom_components/ha_ios_ancs/notification.py:26-35 | The deque and the set agree on the last ids taken in, each once |
| Delivery.AcceptedIdsDiffer | custom_components/ha_ios_ancs/notification.py:26-35 | Whatever data is offered, any limit + 1 consecutive accepted ids are distinct |
| Delivery.AcceptedAgainIff | custom_components/ha_ios_ancs/notification.py:38-68 | Accepted data offered again is accepted again if and only if at least limit others were accepted since |
| Delivery.ParseNotificationData | custom_components/ha_ios_ancs/notification.py:38-68 | Data is accepted iff it is a complete, new notification of another app with a non-blank id outside the window; only then is the id taken in |
| Delivery.Runtime.HandleNotification | custom_components/ha_ios_ancs/runtime.py:377-393 | An accepted live notification is queued without a replay listener and sent to every listener in order; a retained one only fills an empty latest notification |
| Delivery.Runtime.AddNotificationListener | custom_components/ha_ios_ancs/runtime.py:323-344 | A replay listener first receives the pending notifications in order |
| Delivery.Runtime.RemoveListener | custom_components/ha_ios_ancs/runtime.py:337-342 | A listener is removed from both lists |
| Delivery.Runtime.RestoreNotification | custom_components/ha_ios_ancs/runtime.py:251-262 | A saved notification fills the window and the latest notification without being delivered |
| Delivery.DeliveredExactlyOnce | custom_components/ha_ios_ancs/runtime.py:323-393 | Over every history with one replay listener, which may come and go, it receives each accepted live notification exactly once in order of arrival, pending ones first, except those dropped as the oldest of 129 or by a stop |
| Delivery.HeardWhileRegistered | custom_components/ha_ios_ancs/runtime.py:323-393 | Over every history a listener without replay receives each live notification accepted while it is registered, once per registration and in order, and nothing else |
| Delivery.LatestIsLast | custom_components/ha_ios_ancs/runtime.py:251-393 | Over every history the latest notification is the last accepted live one since the last stop, or the first retained one if none came before it |

## Left out

- Guards against null pointers, failed allocations and an uninitialised context: arguments are present here and memory does not run out, except where a branch is named above.
- ClientSystem.FragmentsStayInTheirGeneration: the generation counts without bound; the 32-bit counter of the source could repeat a value only after 2^32 connections within the life of one queued item.
- ClientSystem: the radio stack's callbacks run in one thread, as the stack promises, so a callback is not overtaken by another one; the timers and the worker interleave with it freely.
- ClientWorker: the cache of published notifications for removals, the publication of removals and overflows, and the text of error codes; the parsers and the name cache enter through their results and are modelled in their own modules.
- ClientSession: advertising, bonding, enrolment, the protection against repeated authentication failures and the state names for display.
- DataParser, AppParser: the sets of wanted and received attributes are sets of ids instead of bit masks.
- SlotStore: reads of the memory succeed; a read that fails although the slot is stored is not modelled. Slots hold what they decode to; that a written slot decodes to its configuration is ProvisionBlob.DecodeEncode.
- ProvisionBlob: merging secrets into an update, the redacted status and the fingerprint of the broker settings.
- Sha256, RelayPolicy: collision resistance; only that the hashed bytes determine the fields.
- MqttRelay: the retained-acknowledgement wait, discovery and state payloads, subscriptions made inside the client's own callback, whose failure would withdraw the connection, and initialisation running at the same time as a lifecycle operation. Publish and enqueue calls, the worker's included, are made by anonymous threads; an enqueue call is not held to the connection it needs. The worker's poll of the outbox is its own step.
- RelayItems: the retained copy of the payload and topic of an item; an item is its number.
- MqttRelay.ItemsAreConserved: acknowledged items are at most, not exactly, the accepted ones that left, because an acknowledgement that arrives before its item is tracked is not counted.
- NotificationJson, NotificationObject: the line of the state, the printing of the line, the guard against a text length near the end of the address range, and the allocation that may fail; the build's target name is a parameter of at most 32 characters that JSON prints as they are.
- Json: arrays, fractions, exponents and white space, which the sink does not write, are not read.
- RetryPolicy: the comparison of generations by its caller, and the driver calls behind the actions.
- ProvisioningState: the timers and driver calls that raise the events.
- AppResolver: a name is a string without its terminator.
- Delivery: decoding of the JSON text, defensive copies, availability, diagnostics and Bluetooth listeners, and listeners that call back into the runtime while they are called. The state-sensor runtime behaves like the MQTT one with no retained messages.
- MQTT topics and payload templates, the portal, captive DNS, HID server, device credentials, configuration flow, entities and persistence are not part of this model.
