# PBXSense notification pipeline: verified model

PBXSense watches a PBX from a local Agent and pushes what matters to paired phones through a cloud
relay. This project models that pipeline in Dafny and proves what each part keeps over every run:
trackers that turn noisy PBX snapshots into Signals, the Agent's durable outbox, the delivery protocol
between Agents and the relay, and the relay's indexes, limits and rollups. Verify it with
`dafny verify dfyconfig.toml`.

| file | what it models |
|---|---|
| `Common.dfy` | optional values, look-ups, and laws of filtering |
| `AgentOutbox.dfy` | deduplication of Signals, the outbox, the flush loop, the saved file |
| `Delivery.dfy` | any number of Agents, a lossy network and the relay, as a step system |
| `PhoneHistory.dfy`, `Availability.dfy`, `Activity.dfy` | timed per-phone machines refined to functions of the snapshot history |
| `Incidents.dfy` | from the outages of a phone to their event ids and pushes |
| `TokenIndex.dfy` | device documents and the token ownership pointers |
| `Identity.dfy` | activation, claim, enrollment tickets, the Agent's lasting identity |
| `Framing.dfy` | the peek-based delimiter reader and the AMI packet printer and parser |
| `Limiter.dfy` | the sliding-window limiter with bounded memory |
| `ControlSession.dfy` | polling for commands, answers and the policy interval |
| `SnapshotSequence.dfy` | sequence numbers of encrypted snapshots |
| `Usage.dfy` | daily counters, archives and reports |
| `Presence.dfy` | the crash-safe store of last healthy times |
| `AgentAlerts.dfy` | lost and reachable announcements |
| `LiveDiff.dfy` | live updates as differences, and the client that replays them |

Objects the source updates in place are classes; where a class refines a history, a ghost field holds
that history and `Valid()` ties the real fields to it, so each method's contract speaks about the
history alone. The laws are lemmas about the history functions. Protocols between two parties are step
systems: `Possible(s, steps)` says which steps can follow each other, `After(s, steps)` where they lead,
and the results quantify over all of them. Time is an integer that never decreases.

Assumptions stated as preconditions: SHA-256 is injective where `Injective(hash)` is required; a read of
bytes just peeked returns them (`Framing.Socket`); a query by public key returns a matching Agent if
there is one (`Identity.Answers`). In `Delivery` event records do not expire during a run.

## Where the code does not do what it says

- A comment in the relay promises that the Agent's outbox retries an event after a failed send. An event
  is lost in two ways, both because "duplicate" counts as accepted at the Agent: a second request that
  arrives while the first is still sending is answered "duplicate" and the first then rolls back
  (`Delivery.EarlyDuplicateLosesEvent`); or the first handler dies, or cannot delete its record, before
  it has sent (`Delivery.DeadHandlerLosesEvent`; `Delivery.OrphanedForever` shows that nothing repairs
  it). `Delivery.DuplicateIsTruthfulIff` says over all runs that the answer is true exactly if neither
  is the case, and `Delivery.AcceptedMeansDelivered` proves the promise for all runs in which
  "duplicate" is only answered then (push_relay/app.py:793-852, pbxsense_agent/relay.py:472-503).
- The availability tracker's docstring says that a short recovery does not arm another alert. The code
  arms one (`Availability.ShortRecoveryRearms`; pbxsense_agent/pulse.py:318-320 against 340-348).
- Trunk outages carry no occurrence token, so their event id repeats: a later outage of the same trunk
  is acknowledged without a push while the record lasts. `Delivery.LaterOutageIsSwallowed` is such a
  run, and `Delivery.LaterOutageIsPushedIff` says exactly when a later outage is pushed
  (pbxsense_agent/pulse.py:1033-1055).
- Registration through the Agent does not release the device's previous token pointer; reuse of the
  old token then deletes a device that no longer holds it (`TokenIndex.RegisterKeepsExactIff`,
  `TokenIndex.RotationThenReuseDropsDevice`; push_relay/app.py:384-432 against 655-666).
- Revocation by POST cuts the token to 120 characters before hashing it
  (`TokenIndex.RevokeUndoesRegisterIff`; push_relay/app.py:473-476).
- The limit of six activations is checked against all requests of the client, not only activations.
  `Limiter.CodeAndDocumentDifferIff` says exactly when code and documentation decide differently, and
  `Limiter.FirstActivationRefused` is a client whose very first activation is refused
  (push_relay/app.py:91-99 against push_relay/README.md:126).
- With more than 20 recipients no encrypted snapshot is ever stored: the Agent sends all envelopes in one
  request, the relay refuses more than 20, and its device limit can be set to 50
  (`SnapshotSequence.TooManyRecipientsGetNothing`; push_relay/app.py:572-574 against 52-54).
- The last healthy time of a phone that is healthy when the Agent stops is not in the file
  (`Presence.RestartWhileHealthyForgets`; `Presence.StoredIffNotHealthySince` gives the exact condition).
- An announcement is repeated when a handler dies between sending it and writing the flag
  (`AgentAlerts.DeathRepeatsAnnouncement`; `AgentAlerts.Alternation` says exactly when;
  push_relay/app.py:484-492, 754-759).
- An announcement that fails ends the sweep, so Agents streamed after it are not looked at; while it
  keeps failing they are never announced (`AgentAlerts.SweepFlagsIff`, `AgentAlerts.StarvedForever`,
  `AgentAlerts.StarvingRun`; push_relay/app.py:750-760).
- Live updates never carry the greeting, the mood and the relay status, never remove people, trunks or
  queues, and show the wrong one of two signals with one identifier (`LiveDiff.SessionMeaning`,
  `LiveDiff.OthersExactIff`, `LiveDiff.SignalsExactIff`, `LiveDiff.DuplicateIdentifierFlips`).

## Model

| member | source | states |
|---|---|---|
| `AgentOutbox.DeliveredIsStanding` | pbxsense_agent/relay.py:309-331 | the fingerprint recorded for an id is the one last offered since the id last left the active set, over any rounds |
| `AgentOutbox.DedupeRefinesHistory` | pbxsense_agent/relay.py:323-331 | a Signal is queued exactly when it is eligible and its fingerprint is not the one its history leaves standing |
| `AgentOutbox.OfferAllRefinesHistory` | pbxsense_agent/relay.py:311-341 | one round queues exactly the events its history calls for, in order, from any state whose records follow its history |
| `AgentOutbox.ExtendMeaning` | pbxsense_agent/relay.py:323-341 | one more Signal is recorded, and announced, exactly if it is fresh |
| `AgentOutbox.QuietWhileUnchanged` | pbxsense_agent/relay.py:606-612 | while an id stays active and unchanged up to its occurrence token nothing is queued for it again; a Signal that differs in anything else is |
| `AgentOutbox.RecordedIds` | pbxsense_agent/relay.py:311-331 | after a round exactly those ids are recorded that were offered an eligible Signal, or were recorded before and have an active Signal |
| `AgentOutbox.FlushSettlesPrefixInOrder` | pbxsense_agent/relay.py:472-503 | a flush moves a prefix of the outbox to the outcomes, in order, reply by reply |
| `AgentOutbox.EnqueueKeepsEvents` | pbxsense_agent/relay.py:459-470 | queueing, also of a registration that replaces an older one, loses and reorders no event |
| `AgentOutbox.EnqueueKeepsDevice` | pbxsense_agent/relay.py:461-468 | after queueing at most one registration per token waits, and it is the newest |
| `AgentOutbox.SettleHeadKeepsEvents` | pbxsense_agent/relay.py:482-503 | settling the head keeps outcomes followed by outbox equal to everything queued |
| `AgentOutbox.SettleHeadKeepsDevice` | pbxsense_agent/relay.py:482-503 | a registration leaves the outbox only by its outcome |
| `AgentOutbox.OfferKeepsSound` | pbxsense_agent/relay.py:330-341 | recorded fingerprints and queued events stay exactly those the rounds call for: no fingerprint without its own event; nothing is lost |
| `AgentOutbox.PruneKeepsSound` | pbxsense_agent/relay.py:318-321 | forgetting departed ids starts a round and keeps all of that |
| `AgentOutbox.SettleManyKeepsSound` | pbxsense_agent/relay.py:472-503 | every stage of a flush is sound, and the quarantine list is the last twenty rejections ever |
| `AgentOutbox.NewestDeviceOutcome` | pbxsense_agent/relay.py:212-219 | the registration queued last for a token waits in the outbox or is the last one settled for it |
| `AgentOutbox.AgentRelay.Load` | pbxsense_agent/relay.py:564-569 | a process starts valid from any sound file |
| `AgentOutbox.AgentRelay.Observe` | pbxsense_agent/relay.py:309-343 | events queued are those the history of rounds calls for; a prefix of the outbox is settled until it is empty or the head gets no answer, 408, 425, 429 or a server error; every file written on the way is sound |
| `AgentOutbox.AgentRelay.OfferEach` | pbxsense_agent/relay.py:323-341 | the loop over Signals, with a sound file after every save |
| `AgentOutbox.AgentRelay.RegisterDevice` | pbxsense_agent/relay.py:174-232 | the registration is queued and, once enrolled, a prefix of the outbox settled; delivered means it was settled, accepted or rejected, and the relay lists it; otherwise it waits or is not listed |
| `AgentOutbox.AgentRelay.Flush` | pbxsense_agent/relay.py:472-503 | terminates; settles a prefix, and stops only when empty or when the head gets no answer, 408, 425, 429 or a server error |
| `AgentOutbox.AgentRelay.Queue` | pbxsense_agent/relay.py:459-470 | a registration replaces the waiting one of its token; the file is written |
| `AgentOutbox.AgentRelay.PopHead` | pbxsense_agent/relay.py:482-503 | the head is accepted or quarantined, and the file is written |
| `AgentOutbox.FinalMeaning` | pbxsense_agent/relay.py:45-47 | a reply leaves the item in the outbox exactly if there is none or its status is 408, 425, 429 or at least 500 |
| `AgentOutbox.LastTwentyMeaning` | pbxsense_agent/relay.py:492-492 | the quarantine list is the last twenty rejections, or all of fewer |
| `Delivery.ActKeepsDurable` | pbxsense_agent/relay.py:309-343 | at every point where the Agent can crash, memory and file are sound and differ only in departed ids and in Signals that changed nothing |
| `Delivery.SavedWithItsEvent` | pbxsense_agent/relay.py:330-343 | a fingerprint gets into the file, or changes there, only in the save that queues its event |
| `Delivery.WorkKeepsExclusive` | push_relay/app.py:793-852 | per event record one unfinished handler, or one successful multicast, or a handler gone for good, for every interleaving of handlers |
| `Delivery.WorkKeepsHonest` | push_relay/app.py:793-852 | a record stands for an event that is done, being sent, or orphaned by its handler |
| `Delivery.StepKeepsInv` | push_relay/app.py:773-852 | every step of the system keeps the protocol invariant |
| `Delivery.AtMostOnce` | push_relay/app.py:793-852 | over all runs each event id of a site gets at most one successful multicast |
| `Delivery.NoSilentLoss` | pbxsense_agent/relay.py:318-343 | over all runs with crashes and losses every queued event is settled or in the file's outbox, in queue order, and the file's fingerprints and queued events are exactly those its rounds call for |
| `Delivery.PatientRunLosesNothing` | pbxsense_agent/relay.py:472-503 | over all runs in which the relay refuses only with 408, 425, 429 or server errors nothing is quarantined, and every queued event is accepted or still in the outbox |
| `Delivery.RefusedLeavesIff` | pbxsense_agent/relay.py:482-495 | a refused item leaves the outbox, in memory and in the file, exactly if the status is below 500 and not 408, 425 or 429; the Agent waits no longer either way |
| `Delivery.EveryOutboxCanDrain` | pbxsense_agent/relay.py:472-503 | from every state that a run can reach every Agent's outbox can still be emptied with everything in it accepted in order |
| `Delivery.TakenIsAnswered` | push_relay/app.py:793-852 | a request the relay has taken is answered unless a handler still works on it or has died, and accepted only if it is a registration, a duplicate, without recipient, or pushed |
| `Delivery.RelayChoices` | push_relay/app.py:773-852 | a request is refused, taken or recognised on arrival; its handler then sends once, finds no recipient, or dies, and rolls back only after a failed send |
| `Delivery.LostForGood` | pbxsense_agent/relay.py:472-503 | over all runs a lost request is never worked on or answered, and a lost answer never given again; the retry is a new request |
| `Delivery.RestartForgetsPruning` | pbxsense_agent/relay.py:564-569 | a run in which a crash undoes a pruning that was not saved, so that the returning Signal is not queued again |
| `Delivery.AcceptedMeansDelivered` | push_relay/app.py:838-843 | what the Agent counts as accepted was multicast exactly once or had no recipient, in every run that answers duplicate only about finished sends, also if handlers die |
| `AgentOutbox.OutboxHasNoTips` | pbxsense_agent/relay.py:596-603 | no tip ever waits in an outbox, so the relay never gets one to ignore |
| `Delivery.DuplicateIsTruthfulIff` | push_relay/app.py:794-806 | over all runs duplicate is true exactly if no other request is still working on the event and its handler is not gone without sending |
| `Delivery.OrphanedForever` | push_relay/app.py:794-806 | an event whose handler is gone without sending is never pushed, whatever follows |
| `Delivery.EarlyDuplicateLosesEvent` | push_relay/app.py:838-843 | a run in which an accepted event is lost by an early duplicate answer and a rollback |
| `Delivery.DeadHandlerLosesEvent` | push_relay/app.py:793-837 | a run in which an accepted event is lost because its handler died before the send |
| `Delivery.LaterOutageIsPushedIff` | push_relay/app.py:793-806 | a later outage starts a push exactly if its key has no record, and shares the key of an earlier one exactly if their tokens are equal or both absent |
| `Delivery.LaterOutageIsSwallowed` | pbxsense_agent/pulse.py:1033-1055 | a run in which a Signal without a token ends and comes back and only its first event is pushed |
| `Delivery.RecordsAreHandled` | push_relay/app.py:793-806 | only handling a request with an event's key makes its record |
| `Incidents.OneEventPerOutage` | pbxsense_agent/pulse.py:351-355 | two Signals about a phone have the same event id exactly if no reachable snapshot between them broke the outage |
| `Incidents.EachPhoneOutageIsPushed` | pbxsense_agent/pulse.py:340-355 | whatever was sent about earlier outages of a phone, the first handled request about a later one starts its own push |
| `Incidents.RelayedIffWanted` | pbxsense_agent/relay.py:596-603 | the Agent relays a Signal exactly if it is active, no tip, no live call, and some phone's preferences at the relay would let its event through |
| `PhoneHistory.ConfirmedMeaning` | pbxsense_agent/pulse.py:315-377 | a confirmed run means: some snapshot at least the confirmation time ago, and every reachable one since, shows the phone so |
| `PhoneHistory.RunStartIdentifiesRun` | pbxsense_agent/pulse.py:340-357 | two moments have the same run start exactly if no reachable snapshot between them broke the run |
| `PhoneHistory.RunContinues` | pbxsense_agent/pulse.py:349-350 | a run keeps its start while it goes on |
| `Availability.UnreachableChangesNoRun` | pbxsense_agent/pulse.py:322-323 | unreachable snapshots change no run |
| `Availability.ShortRecoveryRearms` | pbxsense_agent/pulse.py:318-348 | after any recovery, however short, the next outage is shown under a new token |
| `Availability.EndpointAvailabilitySignalTracker.Observe` | pbxsense_agent/pulse.py:315-377 | a phone is in the result exactly if the snapshot is reachable and every reachable one, since one at least the outage confirmation ago, has a last entry for it that is unavailable; the recovery confirmation does not matter |
| `Availability.LatestByExtensionMeaning` | pbxsense_agent/pulse.py:325-329 | the tracker takes the extensions of its own role, each in the condition of its last entry |
| `Availability.ConfirmedOnLists` | pbxsense_agent/pulse.py:315-377 | a confirmed outage, stated on the endpoint lists alone |
| `Availability.EndpointAvailabilitySignalTracker.UpdateAll` | pbxsense_agent/pulse.py:331-377 | the loop over endpoints, each record tied to the history |
| `Availability.EndpointAvailabilitySignalTracker.UpdateEndpoint` | pbxsense_agent/pulse.py:337-375 | one endpoint's timed machine follows its history |
| `Availability.EndpointAvailabilitySignalTracker.NotificationIds` | pbxsense_agent/pulse.py:379-386 | one token per visible outage, fixed by the phone and the start of its run |
| `Activity.RecoveryAccounting` | pbxsense_agent/pulse.py:197-224 | outages entered minus recoveries reported is 0 or 1 and says whether the phone is outstanding |
| `Activity.OutstandingMeaning` | pbxsense_agent/pulse.py:110-119 | a phone is outstanding exactly if an outage was confirmed and no recovery since |
| `Activity.BaselineMeaning` | pbxsense_agent/pulse.py:147-154 | the abandonment baseline is that of the first moment with two waiting callers since the queue was last empty |
| `Activity.BaselineWaits` | pbxsense_agent/pulse.py:149-154 | a busy queue always has callers waiting |
| `Activity.FilterKeepsOrder` | pbxsense_agent/pulse.py:122-136 | dropping events keeps them in time order |
| `Activity.PhonesOf` | pbxsense_agent/pulse.py:414-423 | the phones a snapshot lists, and which of them any entry shows unavailable |
| `Activity.QueuesOfMeaning` | pbxsense_agent/pulse.py:411-413 | the waiting callers of a queue are the largest count any of its entries has |
| `Activity.ActivityTracker.Observe` | pbxsense_agent/pulse.py:101-139 | of the events there were and the new ones exactly those are returned that are recent enough and that no entry of a reachable snapshot contradicts: an unavailable phone that was reported, any unavailable phone after "all", a caller in a cleared queue |
| `Activity.StillCurrentMeaning` | pbxsense_agent/pulse.py:458-474 | an event is current exactly if no entry of the snapshot contradicts it |
| `Activity.ClearedMeaning` | pbxsense_agent/pulse.py:155-170 | a queue is reported as cleared exactly if callers waited at the last reachable snapshot before and none wait now |
| `Activity.ActivityTracker.ObserveMoment` | pbxsense_agent/pulse.py:101-139 | events stay in order, inside the window and true of the last reachable snapshot; new ones are exactly what this snapshot ends; newest first |
| `Activity.ActivityTracker.ObserveReachable` | pbxsense_agent/pulse.py:104-130 | a reachable snapshot's reports and retention |
| `Activity.ActivityTracker.UpdateOutages` | pbxsense_agent/pulse.py:105-118 | confirmed outages enter the outstanding set, disjoint from the reported recoveries |
| `Activity.ActivityTracker.RecordRecoveries` | pbxsense_agent/pulse.py:197-245 | one event names exactly the phones whose recovery this snapshot confirms, and says "all" exactly if none is outstanding |
| `Activity.ActivityTracker.RecordQueues` | pbxsense_agent/pulse.py:147-185 | cleared queues are reported, and a calm busy period exactly if the abandonments are those of the baseline |
| `Activity.ActivityTracker.ClearQueues` | pbxsense_agent/pulse.py:155-185 | the loop over queues that had callers and have none |
| `Activity.ActivityTracker.DropOld` | pbxsense_agent/pulse.py:131-139 | what is older than the window goes |
| `TokenIndex.OneDevicePerToken` | push_relay/app.py:411-431 | no two devices on any Agents hold one token |
| `TokenIndex.RegisterKeepsOwned` | push_relay/app.py:384-432 | registration through the Agent keeps every held token's pointer on its holder |
| `TokenIndex.RegisterOwnKeepsOwned` | push_relay/app.py:647-701 | so does registration by the app |
| `TokenIndex.DeleteKeepsOwned` | push_relay/app.py:1081-1103 | so does deletion, whatever earlier reading it works with |
| `TokenIndex.RegisterKeepsExactIff` | push_relay/app.py:384-432 | no stale pointer is left exactly if the device's token is not rotated |
| `TokenIndex.RegisterOwnKeepsExact` | push_relay/app.py:655-666 | the app's route releases the old pointer and never leaves a stale one |
| `TokenIndex.DeleteKeepsExactIff` | push_relay/app.py:1081-1103 | deletion leaves no stale pointer exactly if its reading has the current token |
| `TokenIndex.RegisterRemovesOnlyHolder` | push_relay/app.py:420-427 | without stale pointers registering a token removes only its previous holder |
| `TokenIndex.RotationThenReuseDropsDevice` | push_relay/app.py:420-427 | after a rotation, reusing the old token elsewhere deletes the rotated device |
| `TokenIndex.RunKeepsIndex` | push_relay/app.py:1066-1115 | over all runs of handlers: one owner per token, and no Agent above its device limit |
| `TokenIndex.TidyRunKeepsExact` | push_relay/app.py:384-432 | over runs without rotation through the Agent and without outdated deletions, pointers and token holders match one to one |
| `TokenIndex.RevokeUndoesRegisterIff` | push_relay/app.py:470-478 | register then revoke by token removes the device exactly for tokens of at most 120 characters; DELETE always does |
| `TokenIndex.RegistrationTakesEffectIff` | push_relay/app.py:384-432 | the Agent's registration takes effect exactly for a token of 1 to 4096 characters and a device that exists or fits; it keeps an existing device's credential; otherwise 400 or 409 and no change |
| `TokenIndex.OwnRegistrationTakesEffectIff` | push_relay/app.py:647-701 | the app's registration takes effect exactly for such a token and an existing device, whose credential it keeps |
| `TokenIndex.ClaimAddsDeviceIff` | push_relay/app.py:347-363 | a claim adds a device exactly below the limit and under a free id |
| `TokenIndex.RemovalTakesEffectIff` | push_relay/app.py:468-478 | revocation and DELETE remove exactly the device they name and touch no other; without a usable token 400 and no change |
| `TokenIndex.CredentialStays` | push_relay/app.py:384-432 | over any run of handlers a device keeps its credential for as long as it exists |
| `TokenIndex.StreamedTokensAreDistinct` | push_relay/app.py:808-817 | an Agent's stored devices have no repeated token |
| `TokenIndex.UniqueDevicesMeaning` | push_relay/app.py:1169-1176 | the multicast list has no token twice and exactly the tokens of the input |
| `TokenIndex.UniqueDevicesOfDistinct` | push_relay/app.py:1169-1176 | on distinct tokens only records without a token go |
| `TokenIndex.MulticastListIsTheEligibleDevices` | push_relay/app.py:808-818 | an event's list is exactly the Agent's stored devices that want it, are not expired and have a token |
| `TokenIndex.UniqueDevicesByToken` | push_relay/app.py:1169-1176 | the dictionary loop computes that list |
| `TokenIndex.RelayDatabase.RegisterDevice` | push_relay/app.py:384-432 | verdict and new documents of the Agent's registration |
| `TokenIndex.RelayDatabase.RegisterOwnDevice` | push_relay/app.py:647-701 | verdict and new documents of the app's registration |
| `TokenIndex.RelayDatabase.CreateRelayDevice` | push_relay/app.py:347-363 | a claim adds a device without a token unless the Agent is full |
| `TokenIndex.RelayDatabase.DeleteDeviceRegistration` | push_relay/app.py:1081-1103 | the device goes, and its pointer only if it names the device |
| `TokenIndex.RelayDatabase.RemoveInvalidTokens` | push_relay/app.py:1106-1115 | each reported device is deleted by its reading, one after the other |
| `TokenIndex.RelayDatabase.DeviceCount` | push_relay/app.py:1066-1078 | the number of the Agent's devices |
| `Identity.CreateKeepsRelayInv` | push_relay/app.py:182-228 | anybody's activation requests keep keys unique and claims matched |
| `Identity.ClaimKeepsRelayInv` | push_relay/app.py:231-344 | so do anybody's claims: one Agent per key, a claimed activation names an Agent with its key |
| `Identity.StepKeepsInv` | push_relay/app.py:182-344 | every step keeps the invariant, and the relay never changes a key or a claim |
| `Identity.StepKeepsIdentity` | pbxsense_agent/relay.py:117-172 | no step changes an identity once adopted |
| `Identity.StableIdentity` | pbxsense_agent/relay.py:117-172 | over every sequence of refreshes, claims, expiries, revocations and lost replies the first identity stays, and is the only one with the key |
| `Identity.ClaimedOnce` | push_relay/app.py:231-344 | over all runs a claimed activation keeps naming the same Agent, with its key, and no later claim has any effect |
| `Identity.ClaimSucceedsIff` | push_relay/app.py:231-344 | over all runs an unclaimed activation is claimed exactly by the secret of its creation, within ten minutes, for an Agent that is not revoked or a new one allowed by the mode and the ticket shown then; any other claim changes nothing |
| `Identity.ClaimEffect` | push_relay/app.py:231-344 | what such a claim writes |
| `Identity.ShownCodeEnrolls` | pbxsense_agent/relay.py:117-172 | over all runs, claiming the code the Agent shows, in time, gives the Agent its identity at its next look; after that time it drops the code |
| `Identity.FirstEnrollment` | pbxsense_agent/relay.py:117-172 | a run of a code, a claim and a look, after which the Agent has its identity |
| `Identity.CreationIff` | push_relay/app.py:182-228 | which requests for an activation are granted, by mode, ticket, signature and known keys |
| `Identity.RefreshIff` | pbxsense_agent/relay.py:117-172 | which of the Agent's own requests are granted: with required signatures always once its key is known |
| `Identity.RevokedForever` | push_relay/app.py:260-268 | over all runs a revoked Agent stays revoked and no activation of its key is claimed |
| `Identity.ClosedEnrollsNobody` | push_relay/app.py:198-199 | a closed, empty relay stays empty over all runs |
| `Identity.TicketEnrollsOnce` | push_relay/app.py:311-335 | in ticket mode the relay's Agents map injectively to used tickets |
| `Identity.StepKeepsByTicket` | push_relay/app.py:311-335 | in ticket mode no step creates an Agent without a ticket |
| `Identity.NewAgentNeedsFreshTicket` | push_relay/app.py:311-335 | in ticket mode a new Agent appears exactly with an unused, unexpired ticket; otherwise nothing changes |
| `Identity.AgentEnrollment.Activate` | pbxsense_agent/relay.py:117-172 | whatever the replies, a call is matched by steps of the system and keeps the identity; a capability with more than 30 seconds left that the relay does not report as claimed or expired is kept, else the created one taken |
| `Identity.AgentEnrollment.EnsureEnrolled` | pbxsense_agent/relay.py:428-449 | likewise; true exactly if the Agent has an identity |
| `Identity.AgentEnrollment.AdoptStatus` | pbxsense_agent/relay.py:451-457 | a claimed activation's Agent is adopted and the capability dropped |
| `Framing.CutIsShortest` | pbxsense_agent/ami.py:247-271 | the cut is the end of the first marker |
| `Framing.WindowSearch` | pbxsense_agent/ami.py:259-265 | searching a window that overlaps what was read by less than a marker finds the first marker of the stream, also split across chunks |
| `Framing.RecvThrough` | pbxsense_agent/ami.py:247-271 | for every fragmentation exactly the shortest prefix through the marker, or everything, and the rest unread |
| `Framing.ParsePrintedLine` | pbxsense_agent/ami.py:239-243 | a printed clean field is parsed back |
| `Framing.ParseUndoesPrint` | pbxsense_agent/ami.py:213-243 | parsing the printed payload gives the dictionary |
| `Framing.NoEarlyEnd` | pbxsense_agent/ami.py:213-232 | inside a printed packet no end marker begins early |
| `Framing.PacketEndsItself` | pbxsense_agent/ami.py:213-232 | a printed packet is cut exactly at its end, whatever follows |
| `Framing.EmptyPacketIsNotFramed` | pbxsense_agent/ami.py:213-215 | an empty dictionary is not framed: the next packet is swallowed with it |
| `Framing.ReadPacket` | pbxsense_agent/ami.py:230-244 | the next packet is cut off the stream and parsed; nothing at all means the connection closed |
| `Framing.ParseLines` | pbxsense_agent/ami.py:238-243 | the loop over lines computes the dictionary |
| `Framing.IsSpaceMeaning` | pbxsense_agent/ami.py:239-243 | the characters stripped from keys and values, one by one |
| `Framing.EndsLineMeaning` | pbxsense_agent/ami.py:238-238 | the characters that end a line, one by one, all of them also stripped |
| `Framing.ReadPackets` | pbxsense_agent/ami.py:213-271 | any sequence of sendable dictionaries printed back to back is read back as it was |
| `Limiter.LiveIsSuffix` | push_relay/app.py:961-964 | what a window drops is a prefix, and exactly what is too old |
| `Limiter.ConsumeWindow` | push_relay/app.py:958-968 | admits exactly if fewer than `limit` admissions remain in the window |
| `Limiter.RecordKeepsPace` | push_relay/app.py:93-96 | an admission keeps the pace of every key: any `max` + 1 consecutive admissions span the window, also with lower limits for single calls |
| `Limiter.CodeIsTheLimiter` | push_relay/app.py:91-99 | the log tagged with kinds decides and grows as the limiter's own |
| `Limiter.CodeAndDocumentDifferIff` | push_relay/app.py:91-99 | code and documentation differ exactly for activations, when fewer than six activations but six or more requests are live and the total allows one |
| `Limiter.FirstActivationRefused` | push_relay/app.py:91-99 | after six other requests a client's first activation is refused |
| `Limiter.SeventhActivationRefused` | push_relay/app.py:91-99 | after six activations code and documentation refuse a seventh for exactly a minute, and other requests not at all |
| `Limiter.AgreementLasts` | push_relay/app.py:958-968 | dropping old admissions early never matters later |
| `Limiter.IdleIsAbsent` | push_relay/app.py:976-982 | forgetting an idle window changes no later decision |
| `Limiter.ConsumeAgrees` | push_relay/app.py:958-968 | the bounded window and the unbounded log decide alike |
| `Limiter.RequestLimiter.Request` | push_relay/app.py:78-100 | the decision is the unbounded limiter's under the key used, and that is the client's own exactly unless it is new and 10,000 keys have been busy in the last minute; at most 10,001 keys; after any calls 121 consecutive admissions of a key span a minute |
| `Limiter.KeyForMeaning` | push_relay/app.py:971-985 | the shared key is used exactly for a new client while 10,000 keys have had an admission in the last minute |
| `Limiter.RequestLimiter.ClientWindow` | push_relay/app.py:971-985 | finds or creates the window, after an eviction if needed, within the bound |
| `Limiter.RequestLimiter.EvictIdle` | push_relay/app.py:974-982 | up to 2,000 idle windows go, nothing else changes, and the agreement with the log stays |
| `ControlSession.SecureInternetRelay.Poll` | pbxsense_agent/internet_relay.py:54-82 | the method follows the poller step by step; every pending response is in each exchange until one returns; the slice of 20 drops nothing |
| `ControlSession.NextExchangeIff` | pbxsense_agent/internet_relay.py:57-63 | over all runs of polls, after an exchange the next one is the first poll with an answer to send or at least the interval later |
| `ControlSession.ExchangesKeepPace` | pbxsense_agent/internet_relay.py:57-63 | with polls at most a gap apart, exchanges are less than the interval plus that gap apart |
| `ControlSession.TriesUntilFirstReply` | pbxsense_agent/internet_relay.py:57-63 | until the first reply every poll is an exchange |
| `ControlSession.AnswersGoOut` | pbxsense_agent/internet_relay.py:62-76 | answers go out with the very next poll and, while replies are lost, with every poll after that |
| `ControlSession.OversizedReplyDropsAnswers` | pbxsense_agent/internet_relay.py:72-95 | a reply with more than 20 commands loses the answers sent and does not move the interval |
| `ControlSession.SecureInternetRelay.AcceptCommands` | pbxsense_agent/internet_relay.py:91-112 | one response per well-formed command in time, in order, never more than 20 |
| `ControlSession.SecureInternetRelay.AcceptPolicy` | pbxsense_agent/internet_relay.py:84-89 | the interval is the last offer of 60 to 900 seconds ever made, and 300 before the first |
| `ControlSession.InForceMeaning` | pbxsense_agent/internet_relay.py:84-89 | so the interval stays within 60 to 900 seconds and is determined by the offers |
| `ControlSession.OfferCountsIff` | pbxsense_agent/internet_relay.py:84-89 | an offer takes effect exactly if it is between 60 and 900 seconds |
| `ControlSession.CompleteMeaning` | push_relay/app.py:527-538 | exactly the answered commands become completed |
| `ControlSession.BatchIsAnswered` | push_relay/app.py:539-565 | a command in an exchange's batch is expired or stays queued, and is answered exactly if it is in time at both ends and well formed, a ping with a pong |
| `ControlSession.WellFormedIdMeaning` | pbxsense_agent/internet_relay.py:9 | an id is well formed exactly if it is 1 to 96 characters of the URL-safe alphabet |
| `ControlSession.ExchangeKeepsInv` | push_relay/app.py:527-565 | an exchange hands out nothing that was added before |
| `ControlSession.StepKeepsInv` | push_relay/app.py:496-565 | every step but a restart keeps it, with lost requests, lost replies and requests processed late |
| `ControlSession.AnsweredOnce` | push_relay/app.py:527-565 | over all runs without an Agent restart each command is put on the pending list at most once, and what was answered is completed or still pending |
| `ControlSession.GivenUpMayArrive` | push_relay/app.py:527-538 | a request the Agent gave up on can still be processed after any further steps, and then completes what it answers |
| `ControlSession.CompletedMeansAnswered` | push_relay/app.py:527-538 | over all runs, restarts included, a command is completed only after the Agent answered it |
| `ControlSession.RestartRepeatsIff` | pbxsense_agent/internet_relay.py:35-36 | after a restart an answer is repeated exactly if a command whose answer was pending is handed out in time |
| `ControlSession.RestartRepeats` | pbxsense_agent/internet_relay.py:35-36 | a run in which a restart makes the Agent answer a ping twice |
| `SnapshotSequence.FingerprintIgnoresOrder` | pbxsense_agent/relay.py:396-403 | the order of the device list does not change the fingerprint |
| `SnapshotSequence.StoreMeaning` | push_relay/app.py:578-609 | exactly the existing devices the envelopes address get the published number |
| `SnapshotSequence.StepKeepsBound` | pbxsense_agent/relay.py:404-426 | no stored sequence is more than one ahead of the file, none goes back, and an acknowledged publish increases the saved one |
| `SnapshotSequence.SequencesAreSafe` | pbxsense_agent/relay.py:374-426 | the same over all runs with losses and restarts |
| `SnapshotSequence.LateRequestIsHarmlessIff` | push_relay/app.py:578-609 | a request processed out of order makes no stored number go back exactly if its own is not below them |
| `SnapshotSequence.LateRequestGoesBack` | pbxsense_agent/relay.py:404-426 | a run after which a late request takes the stored number back from 2 to 1 |
| `SnapshotSequence.TooManyRecipientsGetNothing` | push_relay/app.py:572-574 | over all runs whose publishes have more than 20 recipients nothing is stored and no number advances |
| `SnapshotSequence.UnchangedSendsNothing` | pbxsense_agent/relay.py:401-405 | after an acknowledged publish the same snapshot for the same recipients is not sent again; anything else is |
| `SnapshotSequence.CountsIff` | pbxsense_agent/relay.py:404-426 | the saved number advances exactly for an acknowledged publish of something new with at most 20 recipients of which the relay has one |
| `SnapshotSequence.PublishStores` | push_relay/app.py:569-609 | a publish stores its number for a device exactly if it is something new for at most 20 recipients, got as far as this one, and the device exists |
| `SnapshotSequence.MembershipDecides` | push_relay/app.py:578-609 | a device gets the next acknowledged publish once it has been added, and not once it has been removed |
| `SnapshotSequence.LostReplyReusesNumbers` | pbxsense_agent/relay.py:406-426 | after a lost reply the next snapshot goes out under the same sequence numbers |
| `SnapshotSequence.SnapshotPublisher.Publish` | pbxsense_agent/relay.py:374-426 | the method follows the session's step |
| `Usage.ArchiveKeeps` | push_relay/app.py:1279-1316 | archiving changes no recorded total and leaves every past date in the archive |
| `Usage.UpdateKeeps` | push_relay/app.py:1243-1263 | an update adds its positive increments to today's total and to nothing else |
| `Usage.Conservation` | push_relay/app.py:1243-1316 | over any run the record of every date is the sum of that date's positive increments |
| `Usage.PastArchiveIsSum` | push_relay/app.py:1279-1316 | for a past date the archive entry alone is that sum |
| `Usage.RunIsPositive` | push_relay/app.py:1243-1263 | over any run no counter without a count is stored and no empty entry archived |
| `Usage.ArchivingIsIdempotent` | push_relay/app.py:1287-1294 | archiving again on the same day changes nothing |
| `Usage.ShownIsSum` | push_relay/app.py:1266-1276 | what a report shows for an entity it has looked at is the sum of the date |
| `Usage.Fleet.CountUp` | push_relay/app.py:1243-1263 | an update is one step of the entity's history |
| `Usage.FollowsOn` | push_relay/app.py:1243-1316 | each touch of an entity extends the history its ledger is the result of |
| `Usage.Fleet.Look` | push_relay/app.py:1332-1340 | one row: archive, then today's sum |
| `Usage.Fleet.Report` | push_relay/app.py:1319-1360 | today's totals are the sums of today's increments of all entities |
| `Usage.Fleet.Rollup` | push_relay/app.py:1404-1452 | an earlier day's totals are the sums of that day's increments of all entities |
| `Presence.LastHealthyMeaning` | pbxsense_agent/presence_history.py:26-32 | the remembered time is that of the last healthy sighting, or the loaded one |
| `Presence.QuietStretch` | pbxsense_agent/presence_history.py:31-37 | while nobody goes down, a phone that is not available at the end was not healthy |
| `Presence.DownPhonesAreStored` | pbxsense_agent/presence_history.py:21-38 | if saves succeed, each phone not available when last seen has its final healthy time, or the loaded one, in the file |
| `Presence.StoredIffNotHealthySince` | pbxsense_agent/presence_history.py:31-37 | the file is right about a phone exactly if it was not healthy since the last successful save |
| `Presence.RestartsKeepDownPhones` | pbxsense_agent/presence_history.py:15-66 | over any number of restarts a phone that no process leaves available keeps its final healthy time |
| `Presence.RestartWhileHealthyForgets` | pbxsense_agent/presence_history.py:31-37 | a restart while a phone is healthy loses its time |
| `Presence.EndpointLastActiveTracker.constructor` | pbxsense_agent/presence_history.py:15-53 | memory starts from the file, without an empty extension |
| `Presence.EndpointLastActiveTracker.Observe` | pbxsense_agent/presence_history.py:21-38 | memory is the last healthy time of every phone and the file what memory was at the last save, also with duplicate entries |
| `Presence.EndpointLastActiveTracker.Scan` | pbxsense_agent/presence_history.py:26-35 | the loop over endpoints; `changed` exactly if some phone goes down |
| `AgentAlerts.Alternation` | push_relay/app.py:744-761 | the first announcement is a loss, and one repeats the one before exactly when its handler died before writing |
| `AgentAlerts.DeathRepeatsAnnouncement` | push_relay/app.py:751-760 | a history in which a sweep that dies makes the next one announce again |
| `AgentAlerts.StrictAlternation` | push_relay/app.py:481-492 | otherwise lost and reachable alternate, and the flag is set exactly after a loss |
| `AgentAlerts.RevokedIsQuiet` | push_relay/app.py:752-753 | a revoked Agent is neither announced nor seen again |
| `AgentAlerts.LastSeenMeaning` | push_relay/app.py:895-898 | the last-seen time says exactly since when presence was recorded |
| `AgentAlerts.LostMeansSilent` | push_relay/app.py:748-760 | a sweep announces a loss exactly for an unrevoked, unflagged Agent without recorded presence in 90 seconds whose send goes out |
| `AgentAlerts.ShortGapsNeverAlert` | push_relay/app.py:748-760 | an Agent seen within 90 seconds before every sweep is never announced |
| `AgentAlerts.ReachesIff` | push_relay/app.py:750-760 | a sweep handles an Agent exactly if no Agent streamed before it is overdue with an announcement that does not end well |
| `AgentAlerts.SweepRoundMeaning` | push_relay/app.py:750-760 | what a sweep does to each Agent, reached or not, however its announcement ends |
| `AgentAlerts.FleetIsHistories` | push_relay/app.py:744-761 | enrollment starts an Agent's history and every fleet step extends it by what the step means for that Agent |
| `AgentAlerts.SweepFlagsIff` | push_relay/app.py:750-760 | an overdue Agent is flagged exactly if the sweep handles it and its announcement succeeds |
| `AgentAlerts.SilentAgentIsAnnounced` | push_relay/app.py:744-761 | over all runs of the fleet with sweeps at most 60 seconds apart, an Agent silent since s that is served by the sweeps finding it overdue is announced once, after s + 90 and by s + 150 |
| `AgentAlerts.PromptRun` | push_relay/app.py:744-761 | an Agent swept at 60, when the query does not find it, and at 120, when it is announced |
| `AgentAlerts.StarvedForever` | push_relay/app.py:750-760 | behind an Agent whose announcement keeps failing no Agent is ever announced |
| `AgentAlerts.StarvingRun` | push_relay/app.py:750-760 | two Agents swept every minute, of which the second is never announced, for any number of sweeps |
| `AgentAlerts.AllSweptMeaning` | push_relay/app.py:750-760 | a sweep is one step for each Agent reached and none for the others |
| `AgentAlerts.RelayPresence.Heartbeat` | push_relay/app.py:481-493 | presence is recorded and the flag cleared, unless the announcement fails |
| `AgentAlerts.RelayPresence.SweepOne` | push_relay/app.py:751-760 | one Agent of the sweep |
| `AgentAlerts.RelayPresence.SweepAll` | push_relay/app.py:744-761 | the sweep is the fleet's step; the count is the number of overdue Agents; an announcement that does not end well ends the sweep there |
| `LiveDiff.CollectEvents` | pbxsense_agent/live.py:69-99 | the loop over a dictionary computes the events of changed entries |
| `LiveDiff.HomeLiveEvents` | pbxsense_agent/live.py:4-66 | the whole difference, in order |
| `LiveDiff.CollectionEventsEffect` | pbxsense_agent/live.py:87-97 | replaying them leaves the last changed entry of each key |
| `LiveDiff.RemovedEventsEffect` | pbxsense_agent/live.py:102-125 | replaying the removals drops exactly the keys that are gone |
| `LiveDiff.SignalsExactIff` | pbxsense_agent/live.py:15-31 | a client's signals become the server's exactly if no changed entry of a key is followed by an unchanged last one; distinct identifiers are enough |
| `LiveDiff.SignalEventsIff` | pbxsense_agent/live.py:87-97 | a signal is sent as created exactly if no old one has its identifier, and as updated exactly if the last old one differs |
| `LiveDiff.DuplicateIdentifierFlips` | pbxsense_agent/live.py:80-97 | with two signals under one identifier an unchanged payload makes the client show the other one |
| `LiveDiff.OthersAreOverlaid` | pbxsense_agent/live.py:36-64 | people, trunks and queues become the old table overlaid by the new |
| `LiveDiff.SendsOnlyChanges` | pbxsense_agent/main.py:937-966 | an unchanged payload sends nothing, a changed one always something, and every event there is |
| `LiveDiff.SessionMeaning` | pbxsense_agent/main.py:937-966 | over a whole connection a client shows the server's signals and texts, and of the rest everything since the last full payload |
| `LiveDiff.OthersExactIff` | pbxsense_agent/main.py:937-966 | its people, trunks and queues are the server's exactly if nothing shown since the last full payload has gone |

## Left out

- Cryptography and encodings: signatures, keys, tickets' signatures, base64, encryption of snapshots; hashes are abstract functions.
- HTTP, routing, cookies, pages, QR codes, installers; malformed JSON and field-length checks other than the token's.
- Firestore expiry of documents and non-atomic handlers, except the create, send and rollback steps of `Delivery` and the send and write of `AgentAlerts`.
- An FCM call that reports failure after FCM took the message: `Delivery` counts successful sends.
- Failing saves of the Agent's identity file; failing saves of the presence file are in `Presence`.
- Connectors for other PBXs, file readers and settings: field mapping and I/O.
- `engine.py` and the text of Signals and payloads: texts are opaque strings; whether a device state means unavailable is a flag.
- Voicemail and trunk-recovery moments of `ActivityTracker` and `EndpointAggregateTipTracker`: set differences and one timer, easier than what is modelled.
- Socket timeouts and UTF-8: streams are sequences of characters.
- Rounding of occurrence tokens to microseconds: a token is the phone and the run's start.
- Usage of deleted devices and of Agents beyond the first thousand, and the 90-day expiry of archives.
- Registration revisions, the last outbox error and the times of rejections in the Agent's file; whitespace stripped from tokens.
- The heartbeat's 30-second throttle at the Agent, and how revocation gets into an Agent's document.
- `_state` of the Agent as one object: its outbox, identity and snapshot fields are three classes.
- Delivery, Identity: the handlers are steps on values, because other handlers interleave with them.
- ControlSession.AnsweredOnce: for runs without an Agent restart; `ControlSession.RestartRepeatsIff` says what a restart changes.
- Limiter.RequestLimiter.EvictIdle: which idle windows go first is open, where the source takes the oldest keys of the dictionary.
- SnapshotSequence.SequencesAreSafe: for requests in order; `SnapshotSequence.LateRequestIsHarmlessIff` says what a late one does.
