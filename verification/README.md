# ARQS: a verified model of the relay and its clients

ARQS is a store-and-forward relay. A sender's outbox hands packets to a server,
which checks links, routes, limits and packet ids and queues one delivery per
packet; receivers fetch deliveries by long poll and acknowledge them; a Discord
bridge forwards them to people. This project models those parts in Dafny and
proves what they keep over every run and every interleaving.

| file | part of the system |
|---|---|
| `RelayTables`, `RelaySpec` | the eight tables, and each handler's transaction as a function of them |
| `RelayServer` | the handlers as methods of a class whose fields are the tables, proved against those functions |
| `RelayInvariant`, `RelayRuns` | the inductive invariant, and the relay as a state machine over all interleavings |
| `RelayIdentity`, `RelayRoutes`, `RelayCascade`, `RelayCodes` | nodes and their default endpoints, permissions, foreign-key cascades, link codes |
| `RelayDelivery`, `RelayDrain` | what happens to a queued packet, how a repeated send is answered; FIFO drain |
| `RelayOrigins`, `RelayRaces`, `RelayLosses` | where a delivery comes from; exactly when a write decided on an old read takes a live one; runs in which it does |
| `RelayLimits` | rate limit and caps, for sends one at a time |
| `RelayOvershoot`, `RelayWindows`, `RelayBurst` | how far interleaved sends can exceed the caps and the rate limit, and runs that go that far |
| `NotifierBoard`, `LongPoll` | the inbox notifier as a class, and long polling as a protocol on top of the relay |
| `Outbox`, `OutboxRuns`, `EndToEnd` | the durable outbox as a class, its runs with crashes, and its composition with the relay |
| `BridgeText`, `BridgeReactions`, `BridgeSeen`, `BridgeLabels` | the non-UI state of the Discord bridge |
| `AccessCache` | IP access rules and the snapshot that answers for them |
| `Paging` | `ORDER BY ... LIMIT` |

## How to read the model

Tables are maps from ids to rows. A request handler that reads and writes without
consequence in between is one step. Four handlers are split where it matters: a
send is its checks and later its commit (with up to five lookups after a lost
race on the primary key), a redeem is its reads and later its claiming
transaction, and an endpoint delete and an ack are their reads and later their
deletes. `RelayRuns.Action` also has the unsplit forms of send, delete and ack, for
the claims about requests taken one at a time. `RelayRuns.Sys.minted` records
every uuid handed out; an action may only use ids that are not in it. Packet ids
are chosen by clients and are unrestricted.

The reads that belong to one check are taken together, at one moment: a send whose
route is read before a revocation and whose caps are read after it has no run here.
An early delete of an expired packet happens, in the code, before the rate check
and holds the database's write lock until the commit. The model performs it at the
commit and lets other commits fall in between, which the code does not.

A node is the authenticated caller; a caller whose node is not active is refused.
Payload size, storage usage, clock readings, jitter and the outcome of a client
call are inputs. Times are integers.

## Findings

Several statements one might expect turned out false of the code. Each has a run
that shows it, an exact condition, or both.

- A live packet can be lost without an ack, expiry or delete of it, by a write that
  was decided on an older read: the commit of a send whose session saw an expired
  packet under its id, a slow ack of an earlier delivery of the same packet id, and
  an endpoint delete that was checked before the endpoint was linked and sent to.
  `RelayLosses` has one run from the empty relay for each. `RelayRaces` says exactly
  when it happens: among the deliveries that are live when the write comes, an
  accepted commit takes those that were accepted under its packet id since its
  checks, and no others; an ack takes the delivery it read and those accepted under
  that packet id since; a delete takes every one queued for its endpoint, and all of
  those were accepted since its checks.
- Sends that interleave can exceed every limit. When at most k are between check and
  commit at a time, a queue exceeds its packet cap by at most k - 1, its byte cap by at
  most k - 1 packets of the largest size (`RelayOvershoot`), and a window of the rate
  limit its count by at most k - 1 (`RelayWindows`). For every k one run reaches all of
  these at once (`RelayBurst.EveryOvershootIsReached`).
- The bot's reactions lose an emoji when a reaction key changes its emoji while
  another key still shows the old one, and in no other case (`BridgeReactions`).
- Marking a delivery as seen again does not refresh it: a mark protects its id for
  the next 9999 new ids exactly if the id was new or already the newest entry
  (`BridgeSeen.MarkProtectsUnlessStale`). The bridge itself marks only ids that
  are not cached.
- A delivery can be acknowledged that no file has listed since it was marked. The
  ack of a cached delivery is one of that kind exactly if the handler that marked it
  failed before its save was complete and nothing has been written since
  (`BridgeSeen.RepeatAcksUnsavedIff`). The handler's own ack always follows a save.
- Saving empties the state file before writing it, and an empty or cut-off file loads
  as an empty state. A restart at that point forgets every id saved before and every
  binding, and mail for a linked endpoint is then discarded with an ack
  (`BridgeSeen.CutOffSaveForgetsEverything`). A restart forgets a linked endpoint
  exactly if the file is torn, or the endpoint was linked while the file did not list
  it and no save was completed since (`BridgeSeen.RestartUnlinksIff`).
- The access cache can stay wrong. A refresh reads the settings, then the rules, then
  the marker, in separate reads. The cache answers a text differently from the database
  exactly if rules are dynamic and the verdict on its address, from the policy of the
  first read and the rule of the second, differs from the verdict after all commands
  committed since (`AccessCache.AnswersDifferIff`); of what is committed between the two
  reads only a policy change is missed (`BetweenReadsOnlyThePolicyIsMissed`). The
  watcher fails to notice exactly if nothing was touched since the marker was read, so
  that all those commands came before (`AccessCache.OverlookedIff`).

Three smaller ones: the outbox waits less after the fifth failure than after the
fourth; a flush by packet id sends a dead letter again
(`OutboxRuns.FlushPacketIgnoresStatus`); and a refusal because a
queue is full counts as permanent, so the outbox gives the entry up
(`EndToEnd.OnlyTheRateLimitIsRetried`).

## Model

| member | source | states |
|---|---|---|
| RelayRuns.StepKeepsInvariant | arqs-server/app/main.py:307-870 | every transaction, in every interleaving, keeps all of: references resolve, code texts are distinct, packets and deliveries are in bijection with the derived columns right, routes are exactly what links grant, pending tickets still fit |
| RelayRuns.ReachableInvariant | arqs-server/app/models.py:13-132 | every state reachable from the empty relay satisfies that invariant |
| RelayInvariant.SetNullNeverOrphans | arqs-server/app/models.py:63-67 | no cascading delete leaves a route whose creating link is gone: SET NULL never fires on a surviving route |
| RelayInvariant.AckDropsOnePacket | arqs-server/app/main.py:865-869 | deleting the acked delivery and then its packet removes the same rows as deleting the packet alone |
| RelayInvariant.InsertLinkKeepsRoutes | arqs-server/app/main.py:592-631 | a link inserted after the duplicate checks keeps routes equal to grants and active routes unique per ordered pair |
| RelayInvariant.CommitKeepsInv | arqs-server/app/main.py:745-759 | a send that commits, with or without an early delete, keeps the invariant although its checks are old |
| RelayIdentity.DefaultEndpointsSurvive | arqs-server/app/main.py:492-496 | in every reachable state every node owns an endpoint named "default", whatever deletes are under way |
| RelayIdentity.AcceptedPacketsKeepTheirPromise | arqs-server/app/services.py:132-136 | a packet accepted by a whole send or by an interleaved commit is unexpired exactly as long as the settings and the requested ttl promise |
| RelayRoutes.ActiveRoutesAreGrants | arqs-server/app/main.py:603-628 | there is an active route between two endpoints if and only if some active link grants it |
| RelayRoutes.GrantsAreDisjoint | arqs-server/app/services.py:209-216 | no ordered pair is granted by two active links, so at most one active route exists per pair |
| RelayRoutes.ExactLinkImpliesRoute | arqs-server/app/services.py:219-240 | whenever the duplicate-link check refuses, the route checks would have refused too |
| RelayRoutes.SeverRemovesExactlyItsGrants | arqs-server/app/main.py:665-671 | revoking a link takes away exactly the permissions of that link |
| RelayRoutes.DirectionMatchesRoutes | adapters/arqs_discord_appkit_bot.py:184-194 | can_send and can_receive hold exactly when the server has an active route of that very link in that direction |
| RelayCascade.IdentityDeleteIsTheClosure | arqs-server/app/models.py:33-132 | deleting a node removes a row if and only if a chain of ON DELETE CASCADE keys leads from it to the node |
| RelayCascade.EndpointDeleteIsTheClosure | arqs-server/app/main.py:492-514 | the same for deleting an endpoint |
| RelayCascade.PairedTablesHaveEqualSize | arqs-server/app/models.py:111-117 | there are as many deliveries as packets |
| RelayCascade.IdentityCountsAreExact | arqs-server/app/main.py:347-460 | each figure reported by an identity delete is the number of rows the cascade removes; the packet figure is also the number of deliveries removed, the delivery figure only the node's own inbox |
| RelayCodes.SpentStaysSpent | arqs-server/app/main.py:580-587 | a code that has left "active" never becomes active again |
| RelayCodes.CodeMakesAtMostOneLink | arqs-server/app/main.py:553-633 | over all interleavings of redeemers, clean-ups and deletes, one code makes at most one link |
| RelayCodes.RefusedRedeemIsInert | arqs-server/app/main.py:565-601 | a refused redeem changes no table, except that a code out of date when read may be marked expired |
| RelayDelivery.RemovalCauses | arqs-server/app/main.py:347-870 | an unexpired delivery leaves the queue if and only if the step is one of the listed causes; polls, revocations, key rotations, clean-ups and destination deletes checked after it was queued are not among them |
| RelayDelivery.DeliverySurvives | arqs-server/app/main.py:347-870 | along any run without such a cause a delivery and its packet stay exactly as they are |
| RelayDelivery.RepeatedSendAnswer | arqs-server/app/main.py:699-718 | a repeated send of a queued id gets the queued delivery's id if the content is equal and a conflict otherwise, and never inserts |
| RelayDelivery.LostRaceGoesToLookup | arqs-server/app/main.py:745-762 | the loser of a concurrent insert of one id fails at the primary key, changes no table and goes on to its five lookups |
| RelayDelivery.LookupAnswer | arqs-server/app/main.py:763-806 | a lookup that finds the row unexpired answers as a repeated send is answered |
| RelayDelivery.AcceptanceQueues | arqs-server/app/main.py:748-759 | a packet answered "accepted" is queued under the answered delivery id |
| RelayDelivery.RepeatsAreAnsweredAlike | arqs-server/app/main.py:699-806 | while a packet id stays queued, along any run without a removal of it, every whole send, interleaved send or lookup of it that finds it unexpired gets the queued delivery's id if the content is equal and a conflict otherwise, and changes no table |
| RelayDelivery.AcceptancesBalanceRemovals | arqs-server/app/main.py:748-759 | conservation for every packet id and run: queued before plus accepted equals queued after plus removed |
| RelayDelivery.SecondAcceptanceNeedsRemoval | arqs-server/app/main.py:699-718 | between two acceptances of one id the packet was removed |
| RelayDelivery.AcceptancesExceedRemovalsByAtMostOne | arqs-server/app/main.py:699-718 | k acceptances imply at least k - 1 removals |
| RelayOrigins.DeliveryOrigin | arqs-server/app/main.py:723-759 | over any run: a queued delivery was queued before, with the same rows, or was accepted on the way |
| RelayOrigins.AcceptedIffNew | arqs-server/app/main.py:723-759 | over any run: a queued delivery was accepted on the way under an id exactly if it has that id and was not queued before |
| RelayRaces.CommitTakesWhatWasAcceptedSince | arqs-server/app/main.py:699-752 | from the checks of a send to its commit, over any run in between: an accepted commit takes a live delivery if and only if it was accepted in between under the send's packet id |
| RelayRaces.AckTakesWhatWasAcceptedSince | arqs-server/app/main.py:846-869 | from the reads of an ack to its deletes: it takes a delivery if and only if it is the one read or was accepted in between under the same packet id |
| RelayRaces.DeleteTakesWhatWasAcceptedSince | arqs-server/app/main.py:492-514 | from the checks of an endpoint delete to the delete: each live delivery queued for the endpoint was accepted in between, and is taken |
| RelayRaces.LateRemovalEffect | arqs-server/app/main.py:846-869 | what a delayed ack or endpoint delete removes, in both directions |
| RelayRaces.SendAloneLosesNothing | arqs-server/app/main.py:699-752 | a send nothing interleaves with removes no unexpired delivery |
| RelayLosses.StalePurgeLosesALivePacket | arqs-server/app/main.py:699-703 | a run from the empty relay after which the second of two accepted sends of one id removes the live delivery of the first |
| RelayLosses.LateAckLosesALivePacket | arqs-server/app/main.py:865-869 | a run from the empty relay after which an ack of one delivery removes a later, unacked delivery of the same packet id |
| RelayLosses.LateDeleteLosesALivePacket | arqs-server/app/main.py:496-513 | a run from the empty relay after which the delete of an endpoint removes a packet that came after its checks |
| RelayLimits.PrunedLogDecidesAlike | arqs-server/app/services.py:118-148 | over a log pruned at twice the window every send is decided as over the full history |
| RelayLimits.EveryWindowIsBounded | arqs-server/app/services.py:139-148 | every closed window of the configured length holds at most the allowed number of accepted sends per node |
| RelayLimits.LimiterIsExactFromTheStart | arqs-server/app/services.py:118-148 | both of the above from the empty relay, for sends taken one at a time |
| RelayLimits.UnacceptedSendIsInert | arqs-server/app/main.py:699-721 | a refused or duplicate send leaves every table as it was; an accepted one leaves exactly one event |
| RelayLimits.QueueShrinks | arqs-server/app/services.py:111-116 | removals and the passing of time only shrink a queue's count and bytes |
| RelayLimits.InsertKeepsCaps | arqs-server/app/services.py:151-190 | an insert that passed the cap checks keeps every cap at every later time |
| RelayLimits.CapsHoldFromTheStart | arqs-server/app/services.py:151-190 | with sends one at a time and fixed settings, all five caps hold in every reachable state and at every later time |
| RelayOvershoot.InterleavedSendsOvershootByLessThanK | arqs-server/app/services.py:151-190 | over every interleaving with at most k sends into a queue between check and commit at a time, the queue exceeds its packet cap by at most k - 1 and its byte cap by at most k - 1 packets of the largest size, now and later |
| RelayWindows.InterleavedWindowsOvershootByLessThanK | arqs-server/app/services.py:139-148 | over every interleaving with at most k sends of a node under way at a time, every closed window holds at most k - 1 accepted sends of it above the limit |
| RelayBurst.EveryOvershootIsReached | arqs-server/app/main.py:720-752 | for every k a run from the empty relay, with at most k sends under way, that reaches the packet, byte and window bounds exactly |
| RelayDrain.InboxIsDrained | arqs-server/app/main.py:819-825 | over runs of the relay: an inbox of n deliveries is empty after ceil(n / limit) rounds of a poll and acks of its page, whatever else but an acceptance happens in between |
| RelayDrain.QuietRunOnlyRemoves | arqs-server/app/main.py:307-870 | a run that accepts nothing leaves the remaining packets and deliveries as they were |
| RelayDrain.DrainIsFifo | arqs-server/app/main.py:158-170 | an earlier round hands over only what was queued no later than what a later round hands over, and nothing twice |
| RelayServer.Relay.Register | arqs-server/app/main.py:307-334 | a node and its default endpoint appear, and the invariant holds |
| RelayServer.Relay.RotateKey | arqs-server/app/main.py:338-345 | only the key of an active node changes |
| RelayServer.Relay.SetNodeStatus | arqs-server/app/admin_services.py:898-906 | the status of an existing node changes and nothing else |
| RelayServer.Relay.CreateEndpoint | arqs-server/app/main.py:470-489 | one endpoint of the caller appears |
| RelayServer.Relay.DeleteIdentity | arqs-server/app/main.py:347-460 | both branches of the counting and the cascade compute the specified figures and tables |
| RelayServer.Relay.CountIdentity | arqs-server/app/main.py:357-443 | a node without endpoints is counted as the general query would count it |
| RelayServer.Relay.DeleteEndpoint | arqs-server/app/main.py:492-514 | refused for a foreign, default, linked or queued endpoint, otherwise removed with its cascade |
| RelayServer.Relay.RequestLinkCode | arqs-server/app/main.py:517-549 | the loop over random candidates takes the first code text not in use, or fails |
| RelayServer.Relay.RedeemLinkCode | arqs-server/app/main.py:552-633 | the whole redeem, every refusal and every rollback included |
| RelayServer.Relay.ClaimCode | arqs-server/app/main.py:577-631 | the claiming transaction either inserts link and routes or puts the code back |
| RelayServer.Relay.LinkDenial | arqs-server/app/main.py:592-606 | the first reason not to insert the link: source gone, duplicate link, a route in either direction it would grant, integrity |
| RelayServer.Relay.InsertRoutes | arqs-server/app/main.py:620-630 | the loop adds one active route per granted pair, created by the link |
| RelayServer.Relay.SeverRows | arqs-server/app/main.py:665-671 | the loop revokes the link and exactly the routes it created |
| RelayServer.Relay.RevokeLink | arqs-server/app/main.py:657-673 | only an owner of one side may revoke |
| RelayServer.Relay.AdminRevokeLink | arqs-server/app/admin_services.py:1026-1041 | the same effect without the ownership check |
| RelayServer.Relay.EnforceQueueLimits | arqs-server/app/services.py:151-195 | the first cap that refuses, over sums of the unexpired queues |
| RelayServer.Relay.EnforceSendRateLimit | arqs-server/app/services.py:139-147 | over a log without later events and without an overfull window: no denial if and only if every window of every node is still within the limit once the send's event is added |
| RelayServer.Relay.SumPayloads | arqs-server/app/services.py:156-161 | the total of the payload sizes over a set of deliveries |
| RelayServer.Relay.CheckSender | arqs-server/app/main.py:681-697 | over sound tables: no refusal if and only if the caller is active and owns the sender endpoint, the destination's node is active, some active link grants the pair, and the size is within the limit; "no route" means that no active link grants it |
| RelayServer.Relay.FindDelivery | arqs-server/app/main.py:716-717 | the one delivery of a packet, or none |
| RelayServer.Relay.SendPacket | arqs-server/app/main.py:675-806 | the handler's branches, rollback and lookups give the specified answer and tables, and the invariant holds |
| RelayServer.Relay.InsertChecked | arqs-server/app/main.py:699-762 | early delete, limits, insert and rollback of one session |
| RelayServer.Relay.LookUpAfterCollision | arqs-server/app/main.py:760-806 | over lookups that each meet their own tables and clock: the answer is that of the first lookup that finds the packet unexpired, and a collision if none does |
| RelayServer.Relay.FetchInboxDeliveries | arqs-server/app/main.py:158-170 | the page is the `limit` earliest unexpired deliveries of the node |
| RelayServer.Relay.AckPacket | arqs-server/app/main.py:837-870 | only the destination node removes an unexpired delivery, named by either id |
| RelayServer.Relay.ExpireCodes | arqs-server/app/services.py:102-109 | exactly the open codes out of date become expired, and are counted |
| RelayServer.Relay.DeleteExpiredPackets | arqs-server/app/services.py:111-116 | expired packets go with their deliveries, and are counted |
| RelayServer.Relay.PruneEvents | arqs-server/app/services.py:118-123 | events before the floor go, and are counted |
| RelayServer.Relay.CleanupExpired | arqs-server/app/services.py:98-130 | exactly the outdated codes, expired packets and old events go, and the three figures count them |
| Paging.Select | arqs-server/app/main.py:168-169 | the earliest rows by the key, in order, without repetition, at most `limit` |
| NotifierBoard.InboxNotifier.BindRunningLoop | arqs-server/app/inbox_notifier.py:21-30 | binds an unbound or closed loop, and fails for a second live one |
| NotifierBoard.InboxNotifier.Snapshot | arqs-server/app/inbox_notifier.py:32-36 | binds the loop, creates the slot and returns its version |
| NotifierBoard.InboxNotifier.BeginWait | arqs-server/app/inbox_notifier.py:38-46 | returns at once if the version moved on, otherwise registers a future |
| NotifierBoard.WithdrawUndoesRegistration | arqs-server/app/inbox_notifier.py:38-66 | a wait that timed out or was cancelled leaves the slots as if it had never registered, whoever registered before and after it |
| NotifierBoard.InboxNotifier.Notify | arqs-server/app/inbox_notifier.py:68-79 | skipped without a live loop, run in place on the loop's thread, otherwise handed to the loop |
| NotifierBoard.InboxNotifier.NotifyInLoop | arqs-server/app/inbox_notifier.py:81-91 | raises the version by one, empties the list and resolves exactly the pending waiters with the new version |
| NotifierBoard.FiringResolvesEveryWaiter | arqs-server/app/inbox_notifier.py:81-91 | after a wake-up no listed future is pending and the list is empty |
| LongPoll.StepKeepsNetInv | arqs-server/app/inbox_notifier.py:32-91 | every step keeps: a pending future is on its own node's list and was registered at the current version; whatever a waiting poller missed is owed to it |
| LongPoll.NoLostWakeup | arqs-server/app/main.py:819-834 | in every interleaving, a poller that fetched an empty inbox and missed a later commit for its node returns at once, is resolved, or has a wake-up coming; so too if anything unexpired is queued for it |
| LongPoll.OwedStays | arqs-server/app/main.py:748-753 | a wake-up that is owed stays owed until it happens, and a notify is skipped only before any poller bound the loop |
| LongPoll.OwedCallbacksWakeEverySleeper | arqs-server/app/inbox_notifier.py:79-91 | when senders are done and the loop has run its callbacks, every sleeper that missed a packet holds the version after the one it waited for |
| Outbox.SQLiteOutbox.Enqueue | apis/appkit/outbox.py:63-137 | policies fix the limits, a used packet id is refused, and a new row is due at once |
| Outbox.SQLiteOutbox.SelectDue | apis/appkit/outbox.py:183-200 | the oldest queued rows that are due, never a dead letter or a row being sent |
| Outbox.SQLiteOutbox.FlushEntry | apis/appkit/outbox.py:202-238 | expired entries die unsent, delivered ones are deleted, failed ones are handled |
| OutboxRuns.FailedSendComesBackIff | apis/appkit/outbox.py:240-279 | in any run, a failed send leaves the entry to be selected again if and only if the error is retryable, fewer sends of it have begun than it was enqueued with, and it has not expired; otherwise nothing sends it again |
| Outbox.SQLiteOutbox.FlushDue | apis/appkit/outbox.py:139-141 | the selected entries are flushed in order |
| Outbox.SQLiteOutbox.FlushPacket | apis/appkit/outbox.py:143-147 | flushes the row with the packet id whatever its status, or reports it missing |
| Outbox.BackoffIsBounded | apis/appkit/outbox.py:375-385 | the delay is at most 261 seconds and not monotone |
| OutboxRuns.SendsAreBounded | apis/appkit/outbox.py:274-279 | an entry with limit m is sent at most max(1, m) times in any run with crashes |
| OutboxRuns.NoRetryMeansOnce | apis/appkit/outbox.py:80-82 | policy "none" means at most one send |
| OutboxRuns.NoSendAfterExpiry | apis/appkit/outbox.py:202-214 | no send starts at or after the expiry fixed at enqueue |
| OutboxRuns.SettledStaysSettled | apis/appkit/outbox.py:183-200 | dead letters, and rows a crash left in "sending", are never sent again |
| OutboxRuns.ForeverDiesOfPermanentErrors | apis/appkit/outbox.py:240-272 | an entry without limit and expiry is dead-lettered only for a permanent error |
| OutboxRuns.ForeverPolicyNeverGivesUp | apis/appkit/outbox.py:80-89 | an entry enqueued under policy "forever" survives every retryable error |
| OutboxRuns.RetryUsesUpAnAttempt | apis/appkit/outbox.py:240-252 | m minus attempts decreases with every retry and stays positive |
| EndToEnd.NothingEnqueuedIsLost | apis/appkit/outbox.py:202-238 | under lost and delayed requests and answers, crashes and retries, every enqueued entry is still in the outbox or was accepted by the relay |
| EndToEnd.RetriesNeverConflict | arqs-server/app/main.py:704-718 | no answer to a retry is the "different packet" conflict |
| EndToEnd.RetriesAreDeduplicated | arqs-server/app/main.py:699-718 | k acceptances of an entry's packet imply at least k - 1 removals |
| EndToEnd.OnlyTheRateLimitIsRetried | apis/appkit/outbox.py:357-372 | of the relay's refusals of a send the outbox retries the rate limit and no other, not even a full queue |
| BridgeText.SplitDiscordMessage | adapters/arqs_discord_appkit_bot.py:136-157 | the loop ends and computes the specified chunks; its empty-chunk fallback is not reached |
| BridgeText.FirstChunkHasInk | adapters/arqs_discord_appkit_bot.py:150-152 | a chunk of a trimmed text is never empty, so the fallback is dead code |
| BridgeText.ChunksFit | adapters/arqs_discord_appkit_bot.py:142-156 | every chunk has 1 to limit characters and starts and ends with non-whitespace |
| BridgeText.ChunksRejoin | adapters/arqs_discord_appkit_bot.py:142-156 | the stripped text is its chunks in order, joined by whitespace runs |
| BridgeText.SplitKeepsTheInk | adapters/arqs_discord_appkit_bot.py:136-157 | no non-whitespace character is lost, repeated or moved |
| BridgeText.WordsAreCutOnlyWhenFull | adapters/arqs_discord_appkit_bot.py:144-149 | two chunks meet without whitespace only if the first is full and offers no break |
| BridgeReactions.MatchingIsSameEmoji | adapters/arqs_discord_appkit_bot.py:241-258 | for payloads with exactly one of glyph and id, comparing keys is comparing emoji |
| BridgeReactions.RemoveShows | adapters/arqs_discord_appkit_bot.py:1647-1655 | removing a reaction, of a known or unknown key, keeps the display equal to its specification |
| BridgeReactions.SetShows | adapters/arqs_discord_appkit_bot.py:1754-1778 | setting a reaction keeps the display equal to its specification if and only if no key drops an emoji another key shows |
| BridgeReactions.OutboundMessage.SetExplicitReaction | adapters/arqs_discord_appkit_bot.py:1754-1778 | which emoji are taken off and put on when a reaction is set |
| BridgeReactions.OutboundMessage.HandleSet | adapters/arqs_discord_appkit_bot.py:1633-1645 | a set event is processed as the step function says |
| BridgeReactions.OutboundMessage.HandleRemove | adapters/arqs_discord_appkit_bot.py:1647-1655 | a remove event, of a known or unknown key |
| BridgeReactions.OutboundMessage.HandleRead | adapters/arqs_discord_appkit_bot.py:1671-1676 | a read receipt |
| BridgeReactions.StepRefinesSpecification | adapters/arqs_discord_appkit_bot.py:1607-1655 | an event keeps the display right if and only if it does not make a key drop an emoji another key shows |
| BridgeReactions.DisplayMeetsSpecification | adapters/arqs_discord_appkit_bot.py:1607-1676 | when keys fix their emoji, after every event sequence the bot shows the active reactions, or the read mark, or nothing |
| BridgeReactions.ChangingKeyLosesAnEmoji | adapters/arqs_discord_appkit_bot.py:1769-1770 | three events after which an emoji someone still uses is gone |
| BridgeSeen.SeenDeliveries.MarkSeenDelivery | adapters/arqs_discord_appkit_bot.py:497-506 | list and set agree, the list is duplicate-free and at most 10000 long |
| BridgeSeen.SeenDeliveries.HasSeenDelivery | adapters/arqs_discord_appkit_bot.py:508-509 | the set answers for the list |
| BridgeSeen.SeenDeliveries.Save | adapters/arqs_discord_appkit_bot.py:386-400 | a completed save leaves a file that loads as the whole list, one that is cut off a file that loads as empty |
| BridgeSeen.CacheIsTheLastAdded | adapters/arqs_discord_appkit_bot.py:497-506 | membership means being among the last ids that were added |
| BridgeSeen.MarkProtectsUnlessStale | adapters/arqs_discord_appkit_bot.py:497-506 | a mark protects its id through the next limit - 1 new ids if and only if it was new or the newest |
| BridgeSeen.AckedMeansHandled | adapters/arqs_discord_appkit_bot.py:1523-1605 | over runs with failures and crashes, what was acked as handled was forwarded or consumed |
| BridgeSeen.HandlerAcksAreSaved | adapters/arqs_discord_appkit_bot.py:1603-1605 | the ack that ends a handler is of a delivery that its save has recorded |
| BridgeSeen.RepeatAcksUnsavedIff | adapters/arqs_discord_appkit_bot.py:1525-1527 | over runs: the ack of a cached delivery is of one never saved since its mark if and only if its handler failed before the save and nothing was written since |
| BridgeSeen.CachedIsNotHandledAgain | adapters/arqs_discord_appkit_bot.py:1525-1527 | a cached delivery is not forwarded again |
| BridgeSeen.FailedSaveLosesTheRecord | adapters/arqs_discord_appkit_bot.py:1603-1605 | a reachable state in which a delivery that no file lists is acked |
| BridgeSeen.CutOffSaveForgetsEverything | adapters/arqs_discord_appkit_bot.py:380-400 | a reachable state in which a restart during a save forgets what was saved before and discards mail for a linked endpoint |
| BridgeSeen.RestartUnlinksIff | adapters/arqs_discord_appkit_bot.py:380-400 | over runs from the first start: a restart forgets a linked endpoint, and acks its unseen mail unread, if and only if the file is torn or the endpoint was linked while unlisted and nothing was completely written since |
| BridgeSeen.RepeatsArePaidFor | adapters/arqs_discord_appkit_bot.py:1523-1605 | conservation: times handled plus times recalled plus known before equals the same after with times forgotten |
| BridgeSeen.HandledAtMostOnceMoreThanForgotten | adapters/arqs_discord_appkit_bot.py:1523-1605 | a delivery is forwarded at most once more than it was forgotten |
| BridgeSeen.ForgettingHasACause | adapters/arqs_discord_appkit_bot.py:380-509 | it is forgotten if and only if the bridge restarts from a file that does not list it, fails before the mark, or evicts it; the file does not list it only if a save was cut off or failed, or nothing was written since the mark |
| BridgeLabels.FindNumber | adapters/arqs_discord_appkit_bot.py:448-455 | the unbounded search ends within one more try than there are labels, at the first free number |
| BridgeLabels.LowerSeparatesNumbers | adapters/arqs_discord_appkit_bot.py:452-453 | the numbered labels stay different under lower-casing |
| BridgeLabels.ContactBook.NextContactLabel | adapters/arqs_discord_appkit_bot.py:448-455 | the first numbered label not used by any contact of the user, active or not |
| BridgeLabels.ContactBook.RequestLinkCode | adapters/arqs_discord_appkit_bot.py:1115-1151 | a pending link gets the next numbered label |
| BridgeLabels.ContactBook.RedeemLinkCode | adapters/arqs_discord_appkit_bot.py:1164-1203 | a new contact gets the next numbered label |
| BridgeLabels.ContactBook.EnsureUniqueLabel | adapters/arqs_discord_appkit_bot.py:457-475 | the desired label if it is free, otherwise the next numbered one |
| BridgeLabels.ContactBook.MaterializePendingBinding | adapters/arqs_discord_appkit_bot.py:1997-2021 | a pending link becomes a contact, keeping an existing contact's label |
| BridgeLabels.ContactBook.RenameContact | adapters/arqs_discord_appkit_bot.py:1264-1288 | renamed only if the wanted name is free |
| BridgeLabels.CommandKeepsLabels | adapters/arqs_discord_appkit_bot.py:1186-1201 | every command keeps folded labels unique among a user's active contacts |
| BridgeLabels.LabelsAreAlwaysUnique | adapters/arqs_discord_appkit_bot.py:457-475 | so after every run of commands taken one at a time |
| BridgeLabels.PendingLabelsCoincide | adapters/arqs_discord_appkit_bot.py:1115-1151 | two requests in a row give their pending links the same label |
| AccessCache.AdminTables.SetIpRule | arqs-server/app/admin_services.py:534-570 | an upsert under the canonical address, or a refusal |
| AccessCache.AdminTables.RemoveIpRule | arqs-server/app/admin_services.py:593-601 | a rule is removed, or reported missing, by the number of rows deleted |
| AccessCache.AdminTables.UpdateDefaultPolicy | arqs-server/app/admin_services.py:459-490 | "deny" needs an allow rule at that moment |
| AccessCache.LoadSnapshot | arqs-server/app/runtime_access_cache.py:143-173 | the loop lets the last row of each address decide |
| AccessCache.RuntimeAccessCache.Refresh | arqs-server/app/runtime_access_cache.py:190-194 | a refresh stores exactly the policy of the settings read, the rule table of the rules read, and the marker |
| AccessCache.RuntimeAccessCache.WatcherRound | arqs-server/app/runtime_access_cache.py:197-207 | reloads exactly if the marker differs from the token last seen |
| AccessCache.HistoryKeepsStore | arqs-server/app/admin_services.py:534-601 | over any history of commands rules stay under canonical addresses |
| AccessCache.RuntimeAccessCache.Allows | arqs-server/app/runtime_access_cache.py:248-273 | with a current snapshot the cached answer is the database's, for every text |
| AccessCache.CurrentSnapshotAnswersAlike | arqs-server/app/admin_services.py:623-642 | the same as a lemma, for every mode and blacklist |
| AccessCache.RefreshedCacheAnswersAlike | arqs-server/app/runtime_access_cache.py:190-210 | after a refresh that no commit overlaps and until the next commit, over any history, cached answers equal database answers |
| AccessCache.AnswersDifferIff | arqs-server/app/runtime_access_cache.py:109-194 | from the settings read of a refresh to the next refresh: the cache answers a text differently from the database if and only if rules are dynamic and the verdict from the policy then read and the rule read later is not the verdict after all commands since |
| AccessCache.BetweenReadsOnlyThePolicyIsMissed | arqs-server/app/runtime_access_cache.py:109-160 | commands between the two reads alone make the answers differ if and only if they change the policy and the address then has no rule and is not on the blacklist |
| AccessCache.WatcherWillReloadIff | arqs-server/app/runtime_access_cache.py:99-207 | after a refresh and until the next: the watcher will reload if and only if the marker was touched after the refresh read its token, unless the file was then, and is again, between emptying and writing |
| AccessCache.OverlookedIff | arqs-server/app/runtime_access_cache.py:190-207 | when commits touch the marker and no touch is under way: the cache is wrong and the watcher does not notice if and only if nothing was touched since the token was read and the commands before that read change the verdict as in AnswersDifferIff |
| AccessCache.OverlappedRefreshStaysStale | arqs-server/app/runtime_access_cache.py:193-194 | a run in which a rule committed before the token read is missed and the watcher sees nothing to do |
| AccessCache.PolicyBetweenReadsIsOverlooked | arqs-server/app/runtime_access_cache.py:115-160 | a run in which a policy committed between the two reads is missed and the watcher sees nothing to do |

## Left out

- HTTP, request parsing, API keys, client-IP extraction, logging and health pages: plumbing; an authenticated node id is an input.
- The node blacklist: a caller on it is refused before any modelled code runs.
- SQLAlchemy and SQLite: a commit is an atomic step; a failed commit is a rollback.
- Columns that hold one value in every row (endpoint status, delivery state, last attempt) or that no branch reads (names, timestamps of nodes, links and routes, the outbox's last error and update time).
- Payload size computation and storage usage: numbers given with the request.
- Timestamps as text: integers. Comparing ISO texts, as the outbox does, can differ from comparing times when microseconds are zero.
- Inside the loop after a lost race the code also deletes an expired row in its own session; that session is never committed, so the model looks the row up again instead.
- Changes of runtime settings during a run: the rate-limit and cap claims are for fixed settings.
- RelayCascade.IdentityCountsAreExact: counts and cascade are one step; a commit between the counting and the delete is not modelled.
- RelayLimits.CapsHoldFromTheStart: for sends one at a time only; `RelayOvershoot` has the bounds for interleaved ones. The storage cap is compared with a measured size that is an input, so it has no bound over runs.
- Checks that read several tables (sends, redeems, endpoint deletes, acks) read them at one moment.
- RelayServer.Relay.RedeemLinkCode: the row found by the code text is a parameter, as are the generated ids.
- RelayServer.Relay.SendPacket: the class runs one handler at a time; interleavings are the business of `RelayRuns`.
- Closing or replacing the event loop: the notifier class handles it, the long-poll protocol has one loop that stays open.
- Two flushers on one outbox: the attempt bound is for one flusher that uses a flush by packet id only on queued rows.
- Liveness of the outbox: a row a crash leaves in "sending" is not retried, so only safety is claimed.
- EndToEnd.RetriesNeverConflict: nobody else sends under the outbox's packet ids, and a packet id passed in by a caller is not passed in twice.
- JSON text, uuid generation and reaction-key construction: fresh ids and equal content after a round trip are assumed.
- BridgeReactions.DisplayMeetsSpecification: Discord calls succeed, and payloads carry exactly one of a glyph and a canonical numeric id.
- Case folding beyond the numbered labels, and address parsing: function parameters with the properties the proofs need.
- Interleaved Discord commands: label claims are for commands one at a time.
- "A default of deny implies an allow rule": checked by the code only when the policy is set, so not an invariant.
- Receiver ack policies, command waiting, transport selection, the command-line tools, the Tkinter client and the Discord UI.
