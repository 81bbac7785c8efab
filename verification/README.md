# Verified model of the gateways' shared state

A Dafny model of the parts of the workspace where several actors change the same state: the
message gateway (membership, fan-out, token buckets, mailbox pages, dead letters) and the public
gateway's peer synchronisation (snapshot fetches, anti-entropy, presence, the UI stream).
`dafny verify dfyconfig.toml` checks everything.

Concurrent protocols are step systems: a state, a set of actions, and theorems about every run.
Operations that the source performs with loops or in-place updates are methods and classes,
proved against functions that the theorems are about.  Where an operation runs undisturbed, a
lemma shows that it is a run of the step system.

| File | What it models |
|---|---|
| `Basics.dfy` | the optional value and the two delivery classes that all modules share |
| `Quorum.dfy` | the signature quorum on a signed Global membership |
| `FanOut.dfy` | one scope: tables, broker bindings, the fence, mutations and publishes step by step |
| `ScopeStore.dfy` | the same operations as methods over the tables and a broker whose calls can fail, and a counterexample |
| `Capacity.dfy` | the saturating admission arithmetic |
| `Buckets.dfy` | the two coupled Global buckets and the delivery bucket |
| `RateBound.dfy` | membership, capacity and buckets together: the delivery rate of a network |
| `Keys.dfy` | lease keys and queue names |
| `Mailbox.dfy` | leases, pages, commit tokens and broker copies across instances |
| `PageStore.dfy` | the lease rows, and the pull, commit and reaper loops of one instance |
| `Gaps.dfy` | dead letters, gap rows, their loads under a lease, and acknowledgements |
| `SnapshotLimiter.dfy` | the snapshot-fetch limiter as an interleaving system |
| `LimiterLiveness.dfy` | what schedules of the limiter can and cannot put off |
| `Convergence.dfy` | the snapshot store and the skip test |
| `Reannounce.dfy` | the full pass and the incremental pages of re-announcement |
| `HeaderScan.dfy` | the JSON header scan and the full parse, both over bytes |
| `Presence.dfy` | presence rows and the presence query |
| `UiStream.dfy` | the hub, the replay and the live loop of a stream client |
| `StreamRun.dfy` | a stream client interleaved with the writers of its events |

## Properties that do not hold as one would like

- Fan-out is exact only while no version is attempted twice.  `ReusedVersionReachesFormerMember`
  is a run in which a recurring grant version reaches a former member, `ExactAgainIff` is the
  exact condition, and `NoMemberIsMissed` needs no condition.
- A signer's bad first envelope hides a good later one.  `GarbledFirstEnvelopeRefuses` is a list
  that is refused although its signer signed, and `AcceptedIff` the exact condition.
- The default limits do not pass validation: 400 tenants need 816 queues of 800 admitted
  (`DefaultsAcceptIff`).
- The Interactive reserve needs a burst of at least two (`InteractiveReserveIff`).
- A denied request costs refill when time passes between reading the clock and writing the row.
  `LostSecondCostsAGrant` is a trace in which it costs a later request its grant;
  `DeniedIsFreeIff` and `DeniedCostsGrantIff` are the exact conditions on the row and on the
  next decision.
- A dead letter's mailbox is recovered from its queue name exactly when the principal has no dot
  (`QueueNameRoundTripIff`).  Sessions demand a principal that is its own public key in hex
  (crates/message-gateway/src/auth.rs:30), so a dot can come in only with a member that a
  membership record names and that opens no session.
- A commit returns copies to the queue that the broker handed to the channel after the pull
  stopped reading.  `CommitReturnsACopy` is such a run; it returns none exactly when the page
  lists all of them (`CommitReturnsUntaken`).
- A load of gap rows that outlasts its lease can take a row before the redelivery delay, and can
  have one taken from it by a load that is on time (`StalledLoadTakesEarly`,
  `StalledLoadIsTakenFrom`).  No other load is involved (`EarlyMeansLate`), and nothing is taken
  early exactly when loads end within the delay (`DelayKeptIff`).
- The stored source of a snapshot depends on arrival order unless the copies of the latest
  snapshot name one source between them, or no snapshot of the node names any (`SourceOrderIff`,
  `SnapshotUnderTwoSources`).
- The header scan refuses two forms that the full parse takes: an array, and a `type` given as an
  object (`ArrayFormDisagrees`, `MapFormDisagrees`).  `ScanAgreesIff` is the exact condition.
- A UI event that is committed after one with a higher cursor is never sent
  (`LateCommitIsLost`); `CompleteIff` is the exact condition for completeness.
- While no global permit is free, two waiting tasks of a peer can wake each other for ever
  (`TwoTasksCanSpin`); while one is free, the next fetch starts within a bound
  (`FetchStartsSoon`).

## Model

| member | source | states |
|---|---|---|
| `Quorum.ValidateQuorum` | crates/message-gateway/src/service.rs:1051-1121 | the loop with its set of seen signers and saturating counter accepts exactly the snapshots with `threshold >= 1`, enough envelopes, and enough allowed signers whose first envelope verifies |
| `Quorum.AcceptedMeansQuorum` | crates/message-gateway/src/service.rs:1084-1120 | an accepted snapshot has at least `threshold >= 1` distinct allowed signers, each with a valid signature on this membership |
| `Quorum.RepeatedSignerIsIgnored` | crates/message-gateway/src/service.rs:1099-1107 | a further envelope of a signer already seen never changes who counts |
| `Quorum.AllValidSignersCountIff` | crates/message-gateway/src/service.rs:1099-1117 | every signer with some valid envelope counts if and only if no signer's first envelope is bad while a later one is good |
| `Quorum.AcceptedIff` | crates/message-gateway/src/service.rs:1051-1121 | a snapshot is accepted if and only if `threshold >= 1`, there are that many envelopes, and that many valid signers are left once those whose good envelope is hidden behind a bad one are taken away |
| `Quorum.GarbledFirstEnvelopeRefuses` | crates/message-gateway/src/service.rs:1099-1117 | a bad envelope before a good one of the only signer has the snapshot refused; the good one alone has it accepted |
| `FanOut.ActiveAfter` | crates/message-gateway/src/service.rs:959-1002 | after the tables are rewritten the active principals are exactly the desired ones |
| `FanOut.NextKeepsInv` | crates/message-gateway/src/service.rs:784-1049 | every step, one broker binding or one route row at a time, also one that is the last before a failure, keeps every active member bound under the active version on every route in use |
| `FanOut.RunKeepsInv` | crates/message-gateway/src/service.rs:784-1049 | the same over whole runs, and exactness of all bindings when no version is attempted twice |
| `FanOut.NoMemberIsMissed` | crates/message-gateway/src/service.rs:784-1049 | in every run, a record published to the scope reaches every principal active at its version, versions reused or not |
| `FanOut.FanOutIsExact` | crates/message-gateway/src/service.rs:784-1049 | in every run in which no version is attempted twice, failed attempts included, it reaches exactly those principals |
| `FanOut.ExactAgainIff` | crates/message-gateway/src/service.rs:941-1002 | after a mutation a publish on any route is exact if and only if everyone bound earlier under the same route and version is wanted now |
| `FanOut.FinalizerOnlyBySeedOrLatestSnapshot` | crates/message-gateway/src/service.rs:971-1002 | in every run a principal is an active Finalizer if and only if it is the seeded authority before any mutation, or the latest mutation is a snapshot that names it Finalizer |
| `FanOut.CommittedSnapshotHadQuorum` | crates/message-gateway/src/service.rs:1051-1121 | in every run each committed snapshot was approved by at least `threshold >= 1` distinct signers whom the mutations committed before it allow |
| `FanOut.SeededGoverned` | crates/message-gateway/src/db.rs:306-342 | the seeded network, with the Genesis authority as only member and with all roles, meets the governance invariant |
| `FanOut.TenantLimitHolds` | crates/message-gateway/src/service.rs:925-927 | in every run neither the Global membership nor a mutation under way exceeds the tenant limit |
| `ScopeStore.Store.BindScopeMember` | crates/message-gateway/src/rabbit.rs:239-267 | binds the queues of both classes under route and version and nothing else; when the broker fails it has bound no more than these |
| `ScopeStore.Store.UnbindScopeMember` | crates/message-gateway/src/rabbit.rs:269-300 | removes just these two bindings, and no others when the broker fails |
| `ScopeStore.Store.ReconcileScopeBindings` | crates/message-gateway/src/service.rs:784-880 | binds the current members, unbinds every other recorded principal of the route and rewrites its rows; without a version nothing changes, and a broker failure leaves the tables alone and only bindings it meant to make or remove changed |
| `ScopeStore.Store.ApplyMembershipMutation` | crates/message-gateway/src/service.rs:882-1049 | refused exactly when the mutation window is used up or a Global membership would exceed the limit; failing when the broker does or replication lags, with tables and window untouched and only some of the new bindings made; otherwise every desired member is bound on every known route, the three tables move to the new version and the window counts the mutation |
| `ScopeStore.Store.PublishShared` | crates/message-gateway/src/service.rs:466-493 | refused exactly when payload or tokens do not admit it, or there is no version; otherwise reconciles, then gives a copy to the principals whose class queue is bound under route and active version, and on a broker failure says what may have changed |
| `ScopeStore.UpsertActive` | crates/message-gateway/src/service.rs:971-1002 | the upsert loop leaves the desired principals active at the new version with the roles the mutation names, and the other rows alone |
| `ScopeStore.MutationIsARun` | crates/message-gateway/src/service.rs:882-1049 | an undisturbed mutation is a run of the step system that ends with the tables and bindings of the method |
| `ScopeStore.FailedMutationIsARun` | crates/message-gateway/src/service.rs:941-958 | so is one that fails after any subset of its bindings: the tables are as before, the bindings stay |
| `ScopeStore.PublishIsARun` | crates/message-gateway/src/service.rs:466-493 | so is an undisturbed publish, with the route rows rewritten as the method leaves them |
| `ScopeStore.ReusedVersionReachesFormerMember` | crates/message-gateway/src/service.rs:128 | a run from the seed in which the version of a repeated grant recurs and a record reaches a former member |
| `Capacity.AcceptsIff` | crates/message-gateway/src/config.rs:237-272 | validation compares the exact left sides although it saturates; only the right sides are capped |
| `Capacity.AcceptedMeetsInequalities` | crates/message-gateway/src/config.rs:237-272 | an accepted configuration meets the queue and the delivery-rate inequality in unbounded integers |
| `Capacity.AdmitsTenantsIff` | crates/message-gateway/src/service.rs:1123-1146 | under an accepted configuration the tenant checks admit exactly the counts up to the maximum |
| `Capacity.DefaultsAcceptIff` | crates/message-gateway/src/config.rs:100-135 | with the other limits at their defaults validation accepts exactly up to 392 tenants, so the default of 400 is refused |
| `Buckets.GlobalBucketRow.AcquireGlobalToken` | crates/message-gateway/src/db.rs:823-885 | the row is created full, refilled from the clock as read, charged for the class when granted, and stamped with the clock as written |
| `Buckets.LocalBucketRow.AcquireDeliveryTokens` | crates/message-gateway/src/db.rs:887-949 | a free request and one that can never fit leave the row alone; any other refills it and pays its whole cost or nothing |
| `Buckets.InteractiveReserveIff` | crates/message-gateway/src/db.rs:823-885 | from a full bucket, Interactive requests spaced by the reserve in credited time are all granted whatever Bulk traffic interleaves, if and only if the burst is at least two |
| `Buckets.ReserveKept` | crates/message-gateway/src/db.rs:823-885 | the same from any state in which the total level leads the bulk level by the reserve earned so far |
| `Buckets.DeniedRequestsAreFree` | crates/message-gateway/src/db.rs:855-876 | when no time is lost on denied requests, leaving all of them out of any mixed trace grants the same requests and ends in the same row after refill, whatever time granted ones lose |
| `Buckets.LocalDeniedAreFree` | crates/message-gateway/src/db.rs:926-942 | the same for the delivery bucket |
| `Buckets.DeniedIsFreeIff` | crates/message-gateway/src/db.rs:844-866 | a row that denied a request refills to the same row as without the request if and only if each level recovers what the time between read and write would have added: none was, or the level is full again |
| `Buckets.DeniedCostsGrantIff` | crates/message-gateway/src/db.rs:844-866 | a denied request costs the next one its grant if and only if a level that one needs has not come back to one token since the write |
| `Buckets.LostSecondCostsAGrant` | crates/message-gateway/src/db.rs:844-866 | a trace in which a denied request that loses a second has a later request refused, which is granted without it |
| `RateBound.DeliveriesArePaid` | crates/message-gateway/src/service.rs:387-465 | deliveries of a trace never exceed what the buckets could pay at its start plus the configured rate over its length |
| `RateBound.WindowIsBounded` | crates/message-gateway/src/config.rs:255-272 | for an accepted configuration, deliveries in any window stay within burst times tenants, plus the non-Global reserve, plus the safe rate times the window |
| `RateBound.NetworkIsBounded` | crates/message-gateway/src/service.rs:925-927 | the same with recipients counted from any reachable Global membership, whose size the mutations bound |
| `Keys.LengthPrefixedInjective` | crates/message-gateway/src/db.rs:621-623 | distinct (network, principal) pairs never share a lease row |
| `Keys.QueueNameRoundTripIff` | crates/message-gateway/src/rabbit.rs:833-851 | the principal is recovered from a queue name if and only if it has no dot, otherwise nothing is |
| `Keys.QueueNameInjective` | crates/message-gateway/src/rabbit.rs:917-928 | distinct mailboxes have distinct queues, given an injective network digest |
| `Mailbox.NextKeepsInv` | crates/message-gateway/src/rabbit.rs:406-642 | every step of every instance keeps: one holder per channel, copies held for their own mailbox, pages listing only copies that their channel holds, ids used once, tokens true to their pages, acknowledgements with a cause, pages no younger than their lease |
| `Mailbox.EveryCopyInOnePlace` | crates/message-gateway/src/rabbit.rs:406-642 | in every reachable state a copy is ready, dead, acknowledged, or on a channel that one pull or page of its mailbox holds and no other does; a page that lists a copy is the only one to do so and holds its channel |
| `Mailbox.AckStep` | crates/message-gateway/src/rabbit.rs:556-580 | the step that acknowledges a copy is the self-author filter of the pull that holds it, or the commit of the page that holds it, with matching principal, class and epoch, for the first time |
| `Mailbox.AckedForAReason` | crates/message-gateway/src/http.rs:356-397 | every acknowledged copy was written by its recipient or belongs to a committed page for which a token of its mailbox was issued |
| `Mailbox.TokensMatchTheirPages` | crates/message-gateway/src/http.rs:231-246 | an issued token agrees with its page in mailbox, instance and epoch, so the mismatch branch never closes a page of a genuine token |
| `Mailbox.TheEndIsFinal` | crates/message-gateway/src/rabbit.rs:556-580 | acknowledged and dead copies stay so, and a committed page never comes back |
| `Mailbox.OneOwner` | crates/message-gateway/src/http.rs:356-377 | at any moment one epoch of one instance passes the owner check of a mailbox and class |
| `Mailbox.LiveLeaseIsNotReplaced` | crates/message-gateway/src/db.rs:626-660 | a live lease changes only by its own release |
| `Mailbox.SupersededNeverPassesAgain` | crates/message-gateway/src/db.rs:662-709 | a token whose epoch was handed out and does not pass never passes in any continuation |
| `Mailbox.ReapedPageCannotCommit` | crates/message-gateway/src/rabbit.rs:621-642 | the reaper takes a page only when its token cannot pass, then or later |
| `PageStore.Pages.SortMessages` | crates/message-gateway/src/rabbit.rs:457-517 | own records are acknowledged and the rest kept in order; a message of another mailbox ends the pull and returns everything not yet acknowledged |
| `PageStore.ForeignExact` | crates/message-gateway/src/rabbit.rs:457-517 | the kept tags are exactly those of the messages the recipient did not write |
| `PageStore.Pages.CommitPage` | crates/message-gateway/src/rabbit.rs:556-580 | an absent page changes nothing, a mismatch returns the page's copies, a match acknowledges its tags; the page is gone in every case |
| `PageStore.CommitReturnsUntaken` | crates/message-gateway/src/rabbit.rs:441-451 | committing a page acknowledges the copies it lists and returns exactly the others on its channel, none if and only if it lists all of them |
| `PageStore.DeliveryOwners.TryAcquire` | crates/message-gateway/src/db.rs:626-660 | takes the row exactly when there is none, it has expired, or it has the same epoch |
| `PageStore.DeliveryOwners.Load` | crates/message-gateway/src/db.rs:662-686 | returns the row exactly while it is live |
| `PageStore.DeliveryOwners.Release` | crates/message-gateway/src/db.rs:688-709 | deletes the row exactly when instance and epoch are its own |
| `PageStore.AcquireIsAStep` | crates/message-gateway/src/db.rs:626-660 | in every reachable state, acquiring with the fresh epoch of a pull succeeds exactly when no lease is live |
| `PageStore.CommitLocalDeliveries` | crates/message-gateway/src/http.rs:356-397 | an expired lease or another owner changes nothing; otherwise the page is taken and committed, refused or found gone, and only a commit releases the lease |
| `PageStore.CommitSucceeds` | crates/message-gateway/src/http.rs:356-397 | in every reachable state a token that passes and whose page is there commits it: the listed copies are acknowledged, exactly the copies on its channel that the pull had not taken go back, the lease is released |
| `PageStore.CommitReturnsACopy` | crates/message-gateway/src/rabbit.rs:441-451 | a reachable page that lists one of the two copies on its channel: committing it acknowledges that one and returns the other |
| `PageStore.Pages.CloseExpired` | crates/message-gateway/src/rabbit.rs:590-642 | exactly the expired pages, of one mailbox or of all, are removed and their copies returned, and the count is their number |
| `PageStore.SortingIsARun` | crates/message-gateway/src/rabbit.rs:457-517 | sorting the messages of a pull is a run of filter steps, after which just the others are still taken |
| `PageStore.ReapingIsARun` | crates/message-gateway/src/rabbit.rs:621-642 | closing expired pages is a run of reaper steps |
| `Gaps.Ledger.RecordGap` | crates/message-gateway/src/gaps.rs:10-51 | inserts a row with count one, or raises the count and the last time of the row of the same stream and hour |
| `Gaps.RowSummarisesCalls` | crates/message-gateway/src/gaps.rs:31-39 | after any calls a row exists exactly for the cells called, with the number of calls, the time of the first call and the latest time |
| `Gaps.CountsAreCalls` | crates/message-gateway/src/gaps.rs:31-39 | in every run the counts of any set of rows, with those cleaned up, are the calls that fell into them |
| `Gaps.SumIsTheNumberOfCalls` | crates/message-gateway/src/gaps.rs:31-39 | summed counts equal the calls |
| `Gaps.NeverUnderCounts` | crates/message-gateway/src/rabbit.rs:644-720 | wherever drains stop and letters return, the rows of a stream count at least its drained letters from other principals |
| `Gaps.RowSpansLessThanAnHour` | crates/message-gateway/src/gaps.rs:20-28 | first and last time of a row lie within its hour |
| `Gaps.AcknowledgedThroughItsPage` | crates/message-gateway/src/gaps.rs:120-142 | a row is acknowledged only through the page it is assigned to and was shown on, and then keeps page and acknowledgement |
| `Gaps.LateLetterDoesNotReopen` | crates/message-gateway/src/gaps.rs:36-38 | a late letter raises the count of an acknowledged row and no later select can take the row |
| `Gaps.EarlyMeansLate` | crates/message-gateway/src/http.rs:176-207 | in every run a row is taken from another page within the delay only if the taking load ran past its own lease or the load that assigned the row had |
| `Gaps.DelayKeptIff` | crates/message-gateway/src/http.rs:176-207 | no row is taken early in any run if and only if the delay is zero or loads end within it |
| `Gaps.StalledLoadTakesEarly` | crates/message-gateway/src/gaps.rs:53-107 | whenever loads may outlast a positive delay, a run in which a stalled load takes a row early from one that was on time |
| `Gaps.StalledLoadIsTakenFrom` | crates/message-gateway/src/gaps.rs:53-107 | and one in which a load that is on time takes a row early from a stalled one |
| `Gaps.Ledger.DrainDeadLetters` | crates/message-gateway/src/rabbit.rs:644-720 | takes readable letters up to the limit, records the foreign ones once each, and stops at an unreadable one, which stays |
| `Gaps.DrainIsARun` | crates/message-gateway/src/rabbit.rs:644-720 | a drain of waiting letters is a run of get, record and acknowledge steps |
| `SnapshotLimiter.NextKeepsInv` | crates/gateway/src/gateway_sync.rs:100-255 | every interleaved step keeps permits, counters, the peer map and the wake-up obligations in balance |
| `SnapshotLimiter.LimitsHold` | crates/gateway/src/gateway_sync.rs:134-156 | in every reachable state at most one task per peer holds a peer permit, at most four hold a global one, at most 32 admissions per peer are live, and the map has an entry exactly for peers with one |
| `SnapshotLimiter.NoLostWakeUp` | crates/gateway/src/gateway_sync.rs:190-235 | behind every waiting task stands one that is not waiting and will try, hold, or announce the permit it needs, also after a useless global wake-up is handed on |
| `SnapshotLimiter.NeverStuck` | crates/gateway/src/gateway_sync.rs:190-255 | from every reachable state the admitted tasks can all finish, and the limiter is then empty |
| `LimiterLiveness.SomebodyCanStep` | crates/gateway/src/gateway_sync.rs:190-255 | in every reachable state with an admitted task some task can step |
| `LimiterLiveness.FetchStartsSoon` | crates/gateway/src/gateway_sync.rs:190-235 | while a global permit is free no schedule of the admitted tasks, fair or not, goes on for longer than a bound without starting a fetch |
| `LimiterLiveness.TwoTasksCanSpin` | crates/gateway/src/gateway_sync.rs:190-235 | a reachable state without a free permit that comes back to itself in schedules of any length |
| `SnapshotLimiter.GossipWorkLimiter.TryAdmitSnapshot` | crates/gateway/src/gateway_sync.rs:134-156 | refuses at 32 pending admissions, otherwise counts the admission in the peer's entry, made anew with fresh semaphores if there is none |
| `SnapshotLimiter.GossipWorkLimiter.DropAdmission` | crates/gateway/src/gateway_sync.rs:238-255 | counts down and removes the entry with the last admission |
| `SnapshotLimiter.DropUndoesAdmit` | crates/gateway/src/gateway_sync.rs:238-255 | dropping an admission restores the entries from before it |
| `Convergence.NormalisationsAgree` | crates/gateway/src/gateway_sync.rs:952-958 | the announcement check and the upsert statement read the same instant from a timestamp and order timestamps alike |
| `Convergence.SnapshotStore.UpsertSnapshot` | crates/gateway/src/db.rs:771-840 | a snapshot replaces the row unless it is older, keeping the stored source when it has none |
| `Convergence.SnapshotStore.ValidateAnnouncement` | crates/gateway/src/gateway_sync.rs:852-890 | the checks accept exactly a direct contact from a named relay that names the announcing peer in every place that names one, and in one at least |
| `Convergence.SnapshotStore.HandleAnnouncement` | crates/gateway/src/gateway_sync.rs:792-831 | an announcement stores what it fetched exactly when its contact holds up, it is not the gateway's own, it is admitted, is not current before the admission nor after the permits are there, and the fetch yields the announced node, signer and time; others may store meanwhile, and a dropped announcement adds nothing to what they stored |
| `Convergence.StoreShowsLatest` | crates/gateway/src/db.rs:771-840 | a node has a row exactly when a snapshot of it arrived, and the row shows the latest one |
| `Convergence.OrderDoesNotMatter` | crates/gateway/src/db.rs:771-840 | the same snapshots in any order and any number give the same times and bodies |
| `Convergence.TimeNeverDecreases` | crates/gateway/src/db.rs:793-802 | the stored time of a node never goes back |
| `Convergence.SkippingIsFree` | crates/gateway/src/gateway_sync.rs:892-897 | skipping any announcements that were current when judged, at that moment or earlier, leaves the times and bodies of the final store unchanged |
| `Convergence.SourceOrderIff` | crates/gateway/src/db.rs:795 | the stored source is independent of the order, for any snapshots, if and only if the copies of the latest one name one source between them or no snapshot of the node names any |
| `Convergence.SnapshotUnderTwoSources` | crates/gateway/src/db.rs:795 | one snapshot that arrives under two sources ends with the one that came last |
| `Reannounce.ListAfter` | crates/gateway/src/db.rs:910-987 | the paged query: ascending keys after the cursor, and none missing unless the page is full and they come after it |
| `Reannounce.Reannouncer.ReannounceLocalSnapshots` | crates/gateway/src/gateway_sync.rs:686-747 | one call: starts a full pass unless one is under way, announces a page, moves the cursor, and says whether more remains |
| `Reannounce.PassIsComplete` | crates/gateway/src/gateway_sync.rs:686-767 | a full pass with its incremental pages up to a short one announces every row in the version it has at the end, one that was stored before the pass as well as one first stored or stored again between its pages, provided it is visible on the pages that look for it: full pages for a stamp before the start of the pass, incremental pages from its stamp on otherwise |
| `Reannounce.FullPassLength` | crates/gateway/src/gateway_sync.rs:749-767 | on a fixed table with n visible rows the full pass takes n / 256 + 1 pages, all full but the last |
| `HeaderScan.JsonStringEnd` | crates/gateway/src/gateway_sync.rs:332-349 | the loop computes the function that the next three results are about |
| `HeaderScan.EndOfLiteral` | crates/gateway/src/gateway_sync.rs:332-349 | wherever an encoded string stands in a payload, the end found is just past its closing quote |
| `HeaderScan.EndIsFirstClosingQuote` | crates/gateway/src/gateway_sync.rs:332-349 | for any bytes, the end is past the first quote preceded by an even run of backslashes, and there is none exactly when no such quote exists |
| `HeaderScan.ParseEncode` | crates/gateway/src/gateway_sync.rs:299 | decoding the bytes of an encoded string gives back its characters |
| `HeaderScan.ClassifyGossipPayload` | crates/gateway/src/gateway_sync.rs:292-316 | the scan as written, over its loops and with the full parse behind it, computes the classification that the next results are about |
| `HeaderScan.ScanReadsText` | crates/gateway/src/gateway_sync.rs:292-316 | wherever the full parse reads a string, with escapes, surrogates and UTF-8, the scan finds the same end and reads the same text |
| `HeaderScan.ScanAgreesIff` | crates/gateway/src/gateway_sync.rs:279-316 | when the full parse, of array or object form with skipped members and one `type`, yields a lane, the scan yields that lane or nothing, and that lane if and only if the payload does not start with a bracket and its first member is not a `type` in map form |
| `HeaderScan.MapFormDisagrees` | crates/gateway/src/gateway_sync.rs:309-312 | the payload `{"type":{"event_v1":null}}` is an event to the full parse and refused by the scan |
| `HeaderScan.ArrayFormDisagrees` | crates/gateway/src/gateway_sync.rs:294-296 | so is the payload `["event_v1"]` |
| `Presence.PresenceTable.UpsertPresence` | crates/gateway/src/space.rs:409-422 | a record replaces the row of its key exactly when its sequence number is higher |
| `Presence.TableIsTheMaximum` | crates/gateway/src/space.rs:409-422 | for any records, a key has a row exactly when a record of it was delivered, and the row is the first one delivered with its highest sequence number |
| `Presence.HighestIsFirst` | crates/gateway/src/space.rs:409-422 | with distinct sequence numbers per key that is the record with the highest number, whatever the order and repetition |
| `Presence.OnePresence` | crates/gateway/src/space.rs:600-621 | for any records delivered in any order, an answer has at most one presence per network and agent, and no row of any space has a higher sequence number |
| `Presence.FilteringCommutes` | crates/gateway/src/space.rs:600-621 | asking for a network or a space equals filtering the answer to the open question |
| `Presence.AnswerIsTheBest` | crates/gateway/src/space.rs:600-621 | for any records, the answer holds exactly those that are best of their agent in a named network, first delivered with their number, and whose source is active |
| `Presence.EveryAgentIsShown` | crates/gateway/src/space.rs:600-621 | with all sources active, exactly the agents seen in a named network are shown |
| `UiStream.PublishedEventCache.Remember` | crates/gateway/src/state.rs:50-63 | answers whether the id is new, and keeps the latest 8192 accepted ids in order |
| `UiStream.CacheHoldsLatest` | crates/gateway/src/state.rs:50-63 | after any calls the cache holds the latest accepted ids |
| `UiStream.RepeatsAreFarApart` | crates/gateway/src/state.rs:50-63 | an id is accepted again only after at least 8192 other acceptances |
| `UiStream.UiStreamHub.Subscribe` | crates/gateway/src/state.rs:82-96 | opens the channel of a kind at most once |
| `UiStream.UiStreamHub.Publish` | crates/gateway/src/state.rs:98-122 | an ephemeral event or a new persisted one goes to the full channel and to the channel of its kind, any other nowhere; a filtered channel carries exactly the events of its kind since it was opened |
| `UiStream.FilteredChannelIsEnough` | crates/gateway/src/state.rs:82-96 | a client that asks for one kind is sent the same over the filtered channel as over the full one |
| `UiStream.HandleWs` | crates/gateway/src/streaming.rs:650-781 | hello first; a cursor older than the oldest event is rejected and nothing else sent; otherwise the frames are those of one pass over replayed rows and live events, with a rejection if the receiver lags |
| `UiStream.MarkIsHighest` | crates/gateway/src/streaming.rs:825-829 | the last sent cursor is the highest of the start and all matching events seen |
| `UiStream.SentRises` | crates/gateway/src/streaming.rs:743-762 | whatever arrives, persisted cursors sent go strictly up from above the start and every event sent matches the query |
| `UiStream.SendsIff` | crates/gateway/src/streaming.rs:743-762 | a persisted event is sent at a position if and only if it matches and lies above the start and every matching event before it |
| `UiStream.CompleteIff` | crates/gateway/src/streaming.rs:650-781 | every wanted event is sent if and only if each new one lies above the matching ones before it |
| `UiStream.LateCommitIsLost` | crates/gateway/src/streaming.rs:745-748 | of two events that arrive out of cursor order the later one is not sent |
| `UiStream.ReplayIsWholeIff` | crates/gateway/src/db.rs:1302-1355 | the replay holds every selected event if and only if there are no more than the limit |
| `StreamRun.NextKeepsInv` | crates/gateway/src/streaming.rs:650-781 | every interleaved commit, publication, subscription, replay query and hearing keeps: what was published before the subscription is in the replayed table, and what is committed after the query lies above it |
| `StreamRun.RunIsInOrder` | crates/gateway/src/streaming.rs:650-781 | in every run, however replay and live events overlap and repeat, each new visible event the client meets lies above the matching ones before it |
| `StreamRun.WholeIff` | crates/gateway/src/db.rs:1302-1355 | a replay that succeeds and decodes gave the client every selected event if and only if there are no more than the limit |
| `StreamRun.EveryEventIsSentOnce` | crates/gateway/src/streaming.rs:650-829 | in every run, whether rows fail to decode or the query fails, a client that got every selected event from its replay and has heard all publications was sent every committed visible event it wants exactly once, in cursor order |

## Left out

- Transport and storage clients (HTTP, TLS, NATS, Iroh, AMQP, PostgreSQL): kept as row updates, locks, and the rule that a closed channel returns what it holds.
- Signatures, HMAC, hashes, canonical JSON and DID decoding: verifiers are parameters, hashed keys stand for what they hash, fresh UUIDs are fresh.
- Session challenge and proof, commit-token encoding and expiry, object fetch: short linear checks.
- Floating-point rounding, clock skew between hosts, transaction-start timestamps: arithmetic is over `real` and one clock is assumed.
- Direct and control publishes, publish receipts and payload limits of `publish`: they take no tokens and use no scope binding; the mailbox model takes copies from anywhere.
- Several scopes and networks at once: scopes share no table row and no binding key, so one scope, one mailbox row or one bucket row is modelled at a time.
- Expired grants: they lower the recipients counted for a publish and never the queues bound; `RateBound` takes any count up to the membership.
- The event lane of the peer synchronisation and the outbox: a plain semaphore and an insert.
- Errors of single calls in re-announcement: a failed call leaves the cursor for the next one.
- The recursion limit of the JSON parser, and payloads that the full parse refuses: nothing is said about what the scan makes of those.
- The order in which presence answers and gap rows are listed beyond what the limit needs, and the hello frame's fixed texts.
- A failing client socket: it only cuts the frames short.
- Schema migration, observability, registry review, aggregation endpoints: easy members only.
- StreamRun.EveryEventIsSentOnce: does not cover events of inactive sources, because the replay leaves them out and the live loop does not.
- Convergence.SnapshotStore.HandleAnnouncement: does not model the check of the fetched signature, which only drops more announcements.
- Mailbox.NextKeepsInv: does not bound the number of copies on a page by the prefetch limit.
