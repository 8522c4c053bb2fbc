# Verified model of the noXa client's state machines

This project models the concurrent core of the noXa desktop client (the Go package `client`) and the storage
readiness probe of its server (`cmd/server/readiness.go`), and proves what those parts are meant to guarantee.

The client is a set of small state machines made of short mutex sections joined by epochs, generations and
single-flight claims. Each of them is modelled twice, and both use the same specification functions:

* as a class whose methods are the critical sections, with the same fields and the same branches, each proved equal
  to a specification function of the old state;
* as a transition system whose steps are those sections, channel operations, wire events and outcomes of the outside
  world. A run is any sequence of enabled steps, so the theorems about runs cover every interleaving of any number of
  callers.

Loops over data (the attachment format, the history pager, the download stream) are methods with loop invariants,
proved against functions, with the main results stated as lemmas about those functions.

| file | what it models |
|---|---|
| `Basics.dfy` | optional values, bytes, duplicate-free sequences |
| `ConnManager.dfy` | the fields of `connManager` behind its mutex: transport, epochs, pending waiters, transfers |
| `RequestProtocol.dfy` | requests and replies over a wire without request identifiers |
| `TransferProtocol.dfy` | the transfer epoch gate |
| `Tabs.dfy` | the tab registry, journals and badges |
| `TabPublication.dfy` | what the frontend sees across tab switches, closes and late relays |
| `ScopeKeys.dfy` | channel key generations: pushed, archival and refused |
| `DecryptQueue.dfy` | sealed events waiting for a key: one leader per pull, followers, workers |
| `PubKeyCache.dfy` | the peer key cache: expiry, eviction, epochs, single-flight fetches |
| `Attachment.dfy` | the encrypted attachment container |
| `Settings.dfy` | settings values, mutations, the commit transaction, recent servers |
| `SettingsEffects.dfy` | commits and live effects interleaved |
| `HistoryScan.dfy` | the paged history scan and the export |
| `Download.dfy` | resumable downloads |
| `Progress.dfy` | the progress event throttle |
| `ReadinessProbe.dfy` | the single-flight readiness cache |

`dafny verify dfyconfig.toml` checks everything.

## Where the code does less than one might expect

Each of these is an exact condition, with a lemma for a concrete case or run where there is one.

* `removeTab` does not look at the active tab; it leaves the binding on a registered tab exactly when the removed tab
  is not active (`Tabs.RemoveIsSafeIffInactive`; a case is `Tabs.RemovingActiveTabDangles`).
* The eviction scan of the key cache uses the empty uid as "nothing found yet"; it evicts the least recently used entry
  in every iteration order exactly when that is not the entry with the empty uid, or the only entry
  (`PubKeyCache.EvictsOldestIff`). `PubKeyCache.EmptyUidSurvives` is a run from the empty cache in which another entry
  goes; it takes a server that publishes a key for the empty uid.
* `SaveSettings` returns before its always-on-top call when the opacity call fails
  (`SettingsEffects.SaveDeliversOnTopIff`; a run is `SettingsEffects.OpacityFailureHidesOnTop`).
* `SaveSettings` checks three of the seven hotkeys. The stored ones are valid at every moment exactly when every saved
  blob had the other four valid too (`Settings.HotkeysAlwaysValidIff`; a case is `Settings.InvalidHotkeyIsStored`).
* The server caps a guest's history page at 50 while the scan takes any page shorter than 200 for the last one, so a
  guest's scan reports itself complete after one page; that is true exactly when the history fits in it
  (`HistoryScan.ChatScan`; a case is `HistoryScan.GuestMissesOldest`).
* A scan that meets the oldest message at the end of its last full page reports itself partial; it is complete exactly
  when the limit lets it ask for a page that is not full (`HistoryScan.ChatScan`).
* A partial download longer than the file now on the server is never dropped, so no later attempt can succeed
  (`Download.RecoversIffRemnantFits`; every such state is a case, by `Download.ShrunkenFileSticks`).
* Finalizing a download removes the destination before renaming. The destination is lost exactly when everything but the
  rename works (`Download.DestinationLostIff`; a case is `Download.FailedRenameLosesDestination`). The partial file is
  then the whole file, and the next undisturbed attempt completes.

The install section of `connectWith` also ignores what it finds: it is safe exactly when nothing is pending
(`RequestProtocol.InstallIsSafeIffNothingPending`). That is no shortfall in use. Both callers connect the manager of a
new tab, which has no transport, and then nothing is pending in any run (`RequestProtocol.InstallFindsNothingPending`).

## Model

| member | source | states |
|---|---|---|
| `ConnManager.ConnManager.constructor` | client/conn.go:156-168 | a new manager has no transport, no waiters and accepts no transfers |
| `ConnManager.ConnManager.Install` | client/conn.go:452-467 | the install section replaces the transport, advances its epoch and opens the transfer gate, and leaves the pending table as it was |
| `ConnManager.ConnManager.DetachTransfersLocked` | client/files.go:347-358 | empties the transfer registry and returns each of its sockets once |
| `ConnManager.ConnManager.DetachLocked` | client/conn.go:505-542 | takes the transport and every pending waiter out, each waiter listed once, closes the transfer gate, advances both epochs and hands over the transfer sockets |
| `ConnManager.ConnManager.TerminateConn` | client/conn.go:553-576 | detaches only when the failed transport is still the installed one, and changes nothing otherwise |
| `ConnManager.ConnManager.RegisterRequest` | client/conn.go:745-756 | captures the live transport and puts the waiter under its reply type, or fails without one |
| `ConnManager.ConnManager.ForgetRequest` | client/conn.go:757-763 | removes the entry only if it is still this request's own waiter |
| `ConnManager.ConnManager.ClaimWaiter` | client/conn.go:849-882 | the dispatch section: a frame of another transport or epoch claims nothing; otherwise the waiter for the reply type, or one whose request the error names |
| `ConnManager.ConnManager.FtTarget` | client/chat.go:908-921 | a snapshot names the installed transport, and a transfer tracked at its epoch is accepted in this state; without a snapshot no epoch is accepted |
| `ConnManager.ConnManager.TrackTransferAt` | client/files.go:304-332 | registers under a new token exactly when the gate is open and the epoch is the snapshot's |
| `ConnManager.ConnManager.Untrack` | client/files.go:327-331 | removes one token and nothing else |
| `ConnManager.ConnManager.CancelTransfers` | client/files.go:334-345 | removes all entries with the label and no others, and returns their sockets |
| `RequestProtocol.ReplyComesFromOwnConnection` | client/conn.go:740-890 | in every run, a frame delivered to a waiter was read from the transport its request registered on, and no result channel is sent to twice |
| `RequestProtocol.ResultIsFirstClaim` | client/conn.go:768-780 | in every run, what is on its way to a request, on its channel or returned by its call is the first claim made for it, whole and unchanged, as read off the steps: the frame that took it from the table, or the closed-connection error of the detach that found it there |
| `RequestProtocol.StepClaims` | client/conn.go:862-890 | each step adds its own claim and neither changes nor loses an earlier one |
| `RequestProtocol.ClaimHasItsStep` | client/conn.go:505-585 | a call ends with the closed-connection error only if a detach of the run found it pending, and with a frame only if a dispatch of the run claimed it for that frame |
| `RequestProtocol.ClaimStays` | client/conn.go:884-888 | no continuation changes or loses what was claimed |
| `RequestProtocol.RequestGetsOwnAnswer` | client/conn.go:740-806 | with a server that answers each request at most once, errors without an origin included, and sends nothing unsolicited of an awaited type, no request ever receives another request's answer |
| `RequestProtocol.LiveAnswerIsNotLost` | client/conn.go:862-890 | under the same assumption, an answer arriving on the live transport is claimed for its own request, and an error without an origin makes its read loop cut the transport; that the claimed frame arrives is `LiveAnswerReachesItsCall` |
| `RequestProtocol.LiveAnswerReachesItsCall` | client/conn.go:884-888 | under the same assumption, whatever happens after the dispatch of an answer that names its origin, that frame is on its way to its own call or on its channel, and a call that returned from its channel returned it |
| `RequestProtocol.AnsweredIsNotStranded` | client/conn.go:942-949 | in every such run, a request whose answer was dispatched is no longer pending, or its read loop is about to cut the transport and wake it |
| `RequestProtocol.ClaimIsOwn` | client/conn.go:849-882 | what an accepted frame claims is the request it answers, and nothing for an unsolicited frame or an error without an origin |
| `RequestProtocol.DisconnectedAnnouncedOnce` | client/conn.go:553-585 | "disconnected" is emitted at most once per transport, only for one that was installed and ended unexpectedly, never after an intentional disconnect, and always once it is no longer owed |
| `RequestProtocol.StepAnnouncesCut` | client/conn.go:553-576 | cutting the live transport owes the announcement, and no other step does or takes it back |
| `RequestProtocol.AnnouncedIffCut` | client/conn.go:553-585 | in every run the announcement is owed or made for exactly the transports cut while live otherwise than by a disconnect |
| `RequestProtocol.InstallFindsNothingPending` | client/conn.go:452-467 | in every run an install finds the pending table empty |
| `RequestProtocol.WaiterConservation` | client/conn.go:745-763 | a waiter is never overwritten, and leaves the table only by a claiming dispatch, a detach or its own cleanup |
| `RequestProtocol.DetachWakesEveryWaiter` | client/conn.go:505-585 | every detach empties the table and owes each waiter found there a wake-up |
| `RequestProtocol.InstallIsSafeIffNothingPending` | client/conn.go:452-467 | installing keeps every pending waiter on the live transport exactly when none is pending |
| `RequestProtocol.RunKeepsInv` | client/conn.go:740-890 | the protocol invariant holds in every reachable state |
| `RequestProtocol.RunKeepsHonestInv` | client/conn.go:740-890 | so does the stronger one for an honest server |
| `TransferProtocol.TransfersBelongToInstalledConnection` | client/files.go:304-332 | in every run, each gated transfer came from a snapshot of the installed connection |
| `TransferProtocol.StaleSnapshotNeverRegisters` | client/files.go:304-317 | a snapshot taken before a disconnect can never register, whatever happens in between, reconnects included |
| `TransferProtocol.SnapshotIffInstalled` | client/chat.go:908-921 | in every run a snapshot is handed out exactly while a connection is installed, and is of that connection |
| `TransferProtocol.LiveSnapshotRegisters` | client/files.go:304-332 | as long as its connection lasts a snapshot does register, with its label and socket and under a new token, whatever other transfers come, go or are cancelled in between |
| `TransferProtocol.TeardownHandsOverExactly` | client/files.go:334-358 | a detach hands over every registered socket and empties the registry; a cancel hands over exactly the entries of its label |
| `Tabs.JournalIsRecentState` | client/tabs.go:108-117 | for every event history of a tab, its journal is the last 2000 state events since the latest snapshot |
| `Tabs.BadgesCountUnseenChats` | client/tabs.go:158-180 | unread is the number of background chat events since the last activation, and mentions the mentioning ones among them |
| `Tabs.StoredFlagIsNeverSet` | client/tabs.go:105-107 | no history of a tab ever sets the connected flag stored with it; what the tab bar shows is asked of the manager |
| `Tabs.NewTabKeepsRegistry` | client/tabs.go:247-268 | a drawn identity is new, and registering it keeps order and registry in step, whatever was registered between the two |
| `Tabs.ActivateKeepsRegistry` | client/tabs.go:287-307 | activating keeps the registry, its tabs and their order, makes the tab active and puts the binding on its manager |
| `Tabs.CloseKeepsRegistry` | client/tabs.go:533-580 | closing the tab at a position removes just that tab and leaves the others in their order; an active one is succeeded by the tab to its right, or to its left at the right end, or by none |
| `Tabs.SuccessorIsNeighbour` | client/tabs.go:570-575 | for a tab at any position, the successor is the tab at the next position, else at the one before, else none |
| `Tabs.IndexIsPosition` | client/tabs.go:607-617 | the search finds a tab at its position, and cutting there leaves the tabs before and after it |
| `Tabs.SuccessorRemains` | client/tabs.go:550-580 | the chosen successor is always still registered |
| `Tabs.RemovedKeepsRegistry` | client/tabs.go:607-617 | removal takes out just that tab, leaves the others in their order and keeps order and registry in step |
| `Tabs.RemoveIsSafeIffInactive` | client/tabs.go:607-617 | after removal the binding is on a registered tab exactly when the removed one was not active |
| `Tabs.RemovingActiveTabDangles` | client/tabs.go:607-617 | a concrete removal that leaves the binding on an unregistered tab |
| `Tabs.App.constructor` | client/tabs.go:247-268 | an empty registry |
| `Tabs.App.DrawId` | client/tabs.go:251 | the next identity, drawn outside the lock |
| `Tabs.App.RegisterTab` | client/tabs.go:260-266 | the locked section adds the tab to the registry and at the end of the order, so tabs may stand out of the order of their identities |
| `Tabs.App.JournalSection` | client/tabs.go:94-122 | the journaling section: snapshot resets, cap, badge counts and the active check |
| `Tabs.App.ActivateLocked` | client/tabs.go:287-307 | the activation section |
| `Tabs.App.Find` | client/tabs.go:607-617 | the search loop returns the first position of a tab in the order, or its length |
| `Tabs.App.RemoveTab` | client/tabs.go:607-617 | removal as a method |
| `Tabs.App.CloseSection` | client/tabs.go:550-580 | the committing section of a close: nothing when the tab is gone or its active status changed, else removal, the activation of the neighbour by position, and its journal |
| `TabPublication.FrontendSeesWholePeriods` | client/tabs.go:272-340 | in every run the frontend's stream is a sequence of periods, each a reset, the whole journal its tab's life up to the activation gives, in order, the end marker and then live events; only the last batch may be under way |
| `TabPublication.ReplayIsNeverCut` | client/tabs.go:311-334 | the revalidation inside a replay batch always succeeds |
| `TabPublication.PublishedAtMostOncePerPeriod` | client/tabs.go:77-156 | within one period an event appears at most once, only if it belongs to the tab of the reset: replayed when journaled before, live when journaled after, never both; once the replay is out, exactly the events in the tab's journal at the activation and the live ones have appeared |
| `TabPublication.JournalIsDue` | client/tabs.go:287-307 | what a period replays is the last 2000 state events since the latest snapshot of its tab's life, cut at the activation |
| `TabPublication.ActiveEventGoesLiveOnce` | client/tabs.go:129-147 | an event journaled while its tab was active goes live in that period, unless its relay is still pending or ran after the period was over |
| `TabPublication.LiveEventsAreJournaled` | client/tabs.go:77-156 | what a period publishes live is, whole and unchanged, an event journaled for its tab |
| `TabPublication.RelayCanSettle` | client/tabs.go:129-147 | whenever the publication lock is free a pending relay can take it, and then goes out exactly if its tab and period are still current, and is settled either way |
| `TabPublication.TabsFollowTheirHistory` | client/tabs.go:94-122 | in every run, registry, binding, journals and badges are what each tab's own history says |
| `TabPublication.LivesAreRead` | client/tabs.go:94-122 | those histories are read off the steps: exactly the events journaled for the tab and its activations, in order |
| `TabPublication.OrderIsOfRegistration` | client/tabs.go:260-266 | in every run the tabs stand in the order of their registration, those closed or removed left out |
| `TabPublication.ClosingShowsNeighbour` | client/tabs.go:550-580 | in every run, committing the close of the active tab opens a period of its right neighbour, or its left one at the right end, and of no tab after the last; committing any other close opens none |
| `TabPublication.RunKeepsInv` | client/tabs.go:77-156 | the publication invariant holds in every reachable state |
| `ScopeKeys.ScopeKeyStore.constructor` | client/e2e.go:311-320 | an empty store |
| `ScopeKeys.ScopeKeyStore.StoreKey` | client/e2e.go:346-352 | installing a key lifts its refusal |
| `ScopeKeys.ScopeKeyStore.PutCurrent` | client/e2e.go:326-334 | a pushed key advances the send generation only upwards |
| `ScopeKeys.ScopeKeyStore.PutArchival` | client/e2e.go:338-343 | an archival key never touches the send generation |
| `ScopeKeys.ScopeKeyStore.Mark` | client/e2e.go:386-402 | refusals are recorded only for generations not held |
| `ScopeKeys.ScopeKeyStore.Current` | client/e2e.go:373-382 | whatever history led to this state, the largest generation ever pushed for the scope with the key last installed for it, and none only if nothing was pushed |
| `ScopeKeys.CurrentIsLargestPushed` | client/e2e.go:373-382 | the same about the specification, for every history |
| `ScopeKeys.HeldKeyIsLast` | client/e2e.go:346-352 | the key held for a generation is the last one installed for it |
| `ScopeKeys.HeldAndRefused` | client/e2e.go:322-402 | after any history, which keys are held and which refused, read off the history; never both |
| `ScopeKeys.SendsUnderLargestPushed` | client/e2e.go:322-382 | the send generation is the largest pushed id, and its key is held |
| `ScopeKeys.SendGenerationNeverDecreases` | client/e2e.go:326-334 | over any continuation of a history |
| `ScopeKeys.DeliveryOrderDoesNotMatter` | client/e2e.go:322-402 | the same deliveries in any order leave the same generations held, the same refused and the same send generation |
| `ScopeKeys.ResolveIsAtomic` | client/e2e.go:1008-1021 | a resolution takes the lock twice, and still reads as if in one state of the store |
| `ScopeKeys.ResolveIsExact` | client/e2e.go:1008-1021 | after every history, a generation ever installed resolves under the key last installed for it, to its text exactly when that key opens it; one only refused shows no access; one never heard of is left to be pulled |
| `ScopeKeys.ResolvedTextStays` | client/e2e.go:1008-1021 | a resolved ciphertext keeps its text until the key of that very id is replaced |
| `ScopeKeys.WakeIsNotLost` | client/e2e.go:354-358 | a wake channel is closed exactly when an install, a refusal of something or the end of a queued pull follows, whether or not it changes anything |
| `ScopeKeys.ScopeKeyStore.Wake` | client/e2e.go:354-358 | closes the wake channel and makes the next one, and changes nothing else |
| `DecryptQueue.PullQueue.QueuePull` | client/e2e.go:445-458 | lead, follow or full, decided by the queue alone |
| `DecryptQueue.PullQueue.FinishQueuedPull` | client/e2e.go:462-471 | returns the followers in order, frees the pull and wakes the store's waiters |
| `DecryptQueue.EmittedAtMostOnce` | client/e2e.go:1026-1052 | in every run no sealed event is emitted twice, and each emission is resolved exactly when a worker handled its pull; when that is so is `PlaceholderIff` |
| `DecryptQueue.PlaceholderIff` | client/e2e.go:1026-1052 | in every run an emitted event is a placeholder exactly when 64 followers were queued on its pull as it was submitted, or all eight slots were busy as the leader of its pull tried, both read off the steps |
| `DecryptQueue.WorkerAcceptedIffSlotFree` | client/e2e.go:891-905 | in every run a leader that tries gets a worker, and a direct message one, exactly when fewer than eight pulls and direct messages are being worked on |
| `DecryptQueue.SubmitIsExact` | client/e2e.go:445-458 | the first event of a pull leads, up to 64 more follow in their places, and a further one is left to its caller |
| `DecryptQueue.QuietMeansAllEmitted` | client/e2e.go:1026-1052 | when nothing is under way, every submitted event has been emitted exactly once |
| `DecryptQueue.QuietIsReached` | client/e2e.go:1026-1052 | from every reachable state the work in hand can be finished without anything new |
| `DecryptQueue.DrainingEnds` | client/e2e.go:1026-1052 | however it is scheduled, finishing it takes a bounded number of steps |
| `DecryptQueue.SomebodyGoesOn` | client/e2e.go:1026-1052 | until everybody is done, some leader or caller has a step |
| `DecryptQueue.FollowersInOrder` | client/e2e.go:462-471 | followers of one pull are emitted in the order they queued |
| `DecryptQueue.QueueBounds` | client/e2e.go:442-458 | at most one leader per pull, 64 followers, 8 workers |
| `DecryptQueue.EmitsOnlyNew` | client/e2e.go:891-905 | no step emits an event that is already out |
| `DecryptQueue.RunKeepsInv` | client/e2e.go:442-471 | the queue invariant holds in every reachable state |
| `PubKeyCache.PubKeyCache.constructor` | client/e2e.go:174-180 | an empty cache |
| `PubKeyCache.PubKeyCache.GetLocked` | client/e2e.go:188-201 | an expired entry is dropped, a hit is touched |
| `PubKeyCache.PubKeyCache.EvictExpiredLocked` | client/e2e.go:237-244 | removes exactly the expired entries |
| `PubKeyCache.PubKeyCache.PutLocked` | client/e2e.go:221-235 | stores, after making room if needed |
| `PubKeyCache.PubKeyCache.PutAt` | client/e2e.go:211-219 | stores only in the epoch the fetch started in |
| `PubKeyCache.PubKeyCache.GetOrClaimFetch` | client/e2e.go:246-258 | hit, follow or lead |
| `PubKeyCache.PubKeyCache.FinishFetch` | client/e2e.go:260-270 | closes and removes the flight only if it is still the leader's own |
| `PubKeyCache.PubKeyCache.Clear` | client/e2e.go:272-282 | drops every entry, closes every flight once and advances the epoch |
| `PubKeyCache.ScanFindsOldest` | client/e2e.go:221-235 | the eviction scan over non-empty uids finds the least recently used entry, in any iteration order |
| `PubKeyCache.EvictsOldestIff` | client/e2e.go:221-235 | the scan evicts the least recently used entry in every iteration order, exactly unless that entry has the empty uid and is not alone |
| `PubKeyCache.MissesEmptyOldest` | client/e2e.go:221-235 | whenever it has the empty uid and is not alone, some iteration order lets it survive |
| `PubKeyCache.EmptyUidSurvives` | client/e2e.go:221-235 | a run from the empty cache in which it does |
| `PubKeyCache.StoredSize` | client/e2e.go:221-235 | storing never exceeds 1024 entries |
| `PubKeyCache.HitIsLatestStore` | client/e2e.go:188-201 | in every run, a hit is the last key stored for that uid in the current epoch, unexpired |
| `PubKeyCache.HitIff` | client/e2e.go:188-201 | in every run a lookup hits exactly when the latest key admitted for the user is less than 15 minutes old and was not taken out since, read off the steps, and gives that key |
| `PubKeyCache.AskLeadsIffNobodyFetches` | client/e2e.go:246-258 | in every run asking for a key that is not hit makes the caller the leader exactly when nobody fetches it; asking for one that is hit starts nothing |
| `PubKeyCache.UsesAreRead` | client/e2e.go:188-235 | the uses that order the evictions are the hits and admissions of the run, in order |
| `PubKeyCache.VictimIsLeastRecentlyUsed` | client/e2e.go:221-235 | in every run, the victim is the least recently used unexpired entry, unless that is one of several and has the empty uid |
| `PubKeyCache.StaleFetchIsNotAdmitted` | client/e2e.go:211-219 | no result fetched before a clear is admitted after it |
| `PubKeyCache.FlightsCloseOnce` | client/e2e.go:246-282 | in every run no flight channel is closed twice or while a follower may still join it; once a flight is out of the cache, by its leader or by a clear, its channel is closed or about to be; one still in it has an unfinished leader of this epoch, at most one per uid |
| `PubKeyCache.FinishClosesOwn` | client/e2e.go:260-270 | a leader's finish closes its own channel or nothing |
| `PubKeyCache.RunKeepsInv` | client/e2e.go:182-282 | the cache invariant, its size bound included, holds in every reachable state |
| `Attachment.SealFile` | client/e2e.go:554-577 | the sealing loop computes the specified container, or fails with the cipher |
| `Attachment.OpenFileLimited` | client/e2e.go:605-647 | opening computes the specified result on every blob, legacy blobs included |
| `Attachment.OpenChunks` | client/e2e.go:606-633 | the record loop ends on every input and computes the specified result |
| `Attachment.SealedFileOpens` | client/e2e.go:554-633 | opening a sealed file returns every byte sequence; with a positive limit it succeeds exactly when the plaintext fits |
| `Attachment.SealedLengthIsExact` | client/e2e.go:541-548 | the sealed length is exactly the size formula, for every plaintext |
| `Attachment.RecordsFailOnlyWithCipher` | client/e2e.go:562-569 | sealing fails only when the cipher does: a chunk never outgrows its length prefix |
| `Attachment.OpensExactlyTheFormat` | client/e2e.go:605-633 | a blob with the header, whoever made it, opens to a plaintext exactly when it is a list of records of legal size that decrypt in order to it, within the limit |
| `Attachment.LegacyBlobOpens` | client/e2e.go:634-646 | a blob of the older format opens to what its box holds under its nonce, within the limit, unless its nonce begins like the newer header |
| `Attachment.LegacyOpensOnlyBoxes` | client/e2e.go:634-646 | a blob without the header opens to a plaintext exactly when it is a nonce followed by a box that opens to it, within the limit |
| `Attachment.NextOfFramed` | client/e2e.go:565-573 | the framing of a legal chunk splits back into that chunk |
| `Attachment.FramedOfNext` | client/e2e.go:610-623 | whatever splits into a record is that record's framing |
| `Settings.NormalizeReachesRange` | client/settings.go:441-469 | normalization puts every setting in range and changes exactly those out of range |
| `Settings.ClampIsNearest` | client/settings.go:454-462 | a value is the clamped one exactly when it is the nearest in range |
| `Settings.NormalizedLookIsNearest` | client/settings.go:441-469 | each normalized appearance setting is the nearest value in range to the one asked for |
| `Settings.Store.UpdateSettings` | client/settings.go:581-604 | write first, publish only on success; a failed write changes nothing; what the published mutations amount to is `LastWriterWins` |
| `Settings.MergeRecent` | client/settings.go:785-797 | the merging loop moves the server to the front and caps the list |
| `Settings.GoFieldsIgnoreBlobs` | client/settings.go:707-756 | after any committed history the Go-owned fields depend only on the Go-side mutations |
| `Settings.SaveReplacesTheRest` | client/settings.go:707-756 | a saved blob replaces all other fields, up to clamping |
| `Settings.LastWriterWins` | client/settings.go:581-604 | after every committed history each field is that of the last mutation that wrote it, read off the history: the always-on-top flag, each of the seven hotkeys, the opacity as the nearest value in range, the version, the identity, and the rest from the last saved blob |
| `Settings.SaveAcceptedIff` | client/settings.go:723-744 | a blob is accepted exactly when its three checked hotkeys parse, its line limit is positive, its volume in range and its notification level one of the four |
| `Settings.OthersAcceptedIff` | client/settings.go:780-783 | the other calls are refused exactly for a spec that does not parse or an empty address |
| `Settings.RecentsAreNewestServers` | client/settings.go:780-804 | the list capped at every step is the ten newest distinct servers of the whole history |
| `Settings.RecentsInSettings` | client/settings.go:780-804 | the list in the settings follows from the committed connects alone |
| `Settings.HotkeysStayValidIff` | client/settings.go:725-733 | an accepted mutation keeps all hotkeys valid exactly unless it is a blob with one of the four unchecked ones invalid |
| `Settings.HotkeysAlwaysValidIff` | client/settings.go:723-756 | over a history, they are valid at every moment exactly when every saved blob had those four valid |
| `Settings.InvalidHotkeyIsStored` | client/settings.go:723-756 | a blob with an invalid hotkey that is accepted and stored |
| `Settings.FoldStaysInRange` | client/settings.go:592-593 | every committed settings value is in range |
| `SettingsEffects.CommitsAreLinearizable` | client/settings.go:581-604 | in every run memory is the fold of exactly the published mutations in commit order, and the file holds that or the one candidate about to be published |
| `SettingsEffects.FailedWriteChangesNothing` | client/settings.go:594-596 | a transaction whose write fails leaves the whole system as it was |
| `SettingsEffects.GoFieldsInRuns` | client/settings.go:707-804 | in every run the Go-owned fields follow from the committed Go-side mutations; if the loaded list had no duplicates and at most ten entries, the recent servers are the ten newest distinct ones |
| `SettingsEffects.FoldStaysSound` | client/settings.go:723-744 | volume and notification level stay valid under accepted mutations |
| `SettingsEffects.EffectsConverge` | client/settings.go:640-693 | in every run, a family with no call outstanding and no native failure since its last read shows the platform the value now in the settings, whatever the other families do |
| `SettingsEffects.PlatformShowsLastWriter` | client/settings.go:640-693 | the same read off the steps: the platform has what the last commit concerning the family asked for |
| `SettingsEffects.EffectsCanFinish` | client/settings.go:640-693 | from every state the outstanding calls can be made, without any further commit, until no family has one left |
| `SettingsEffects.StaleNeedsFailure` | client/settings.go:672-693 | the proviso is void before a native failure, and always for the hotkeys |
| `SettingsEffects.SaveDeliversOnTopIff` | client/settings.go:761-776 | one save on its own leaves the window as saved exactly when its opacity call succeeds or the window was that way already |
| `SettingsEffects.OpacityFailureHidesOnTop` | client/settings.go:761-776 | a run that ends quiet with settings and window disagreeing |
| `SettingsEffects.EffectGate.ApplyLatest` | client/settings.go:640-670 | the gate skips old tickets, else claims its family and hands the platform the settings of that moment; no other family changes |
| `SettingsEffects.CallIsEffect` | client/settings.go:640-670 | uninterrupted, the claim, read and native steps of the transition system do to the family what the method does |
| `SettingsEffects.RunKeepsInv` | client/settings.go:640-693 | the convergence invariant holds in every reachable state |
| `HistoryScan.ServedLimit` | internal/server/chatx.go:813-815 | the page limit the server uses, capped at 50 for guests |
| `HistoryScan.ChatScan` | client/chat.go:329-362 | over a growing store, the scan visits the newest part of the first history in order without gap or repeat; it fails exactly when its first page does, and is complete exactly when no page failed and the limit let it see a page that is not full; a guest's is complete after one page |
| `HistoryScan.GuestMissesOldest` | internal/server/chatx.go:813-815 | of 51 messages a guest's scan sees 50 and reports itself complete |
| `HistoryScan.PageContinues` | internal/store/chat.go:83-100 | a page fetched at the cursor of a grown store continues the walk exactly where it stopped |
| `HistoryScan.NewestIsGapFree` | client/chat.go:329-362 | such a walk never meets an id twice and misses none above its end |
| `HistoryScan.ReverseInPlace` | client/chat.go:1665-1667 | the swap loop reverses the array |
| `HistoryScan.OldestFirstIsSuffix` | client/chat.go:1664-1667 | the reversed walk is a suffix of the first history |
| `HistoryScan.CollectLines` | client/chat.go:1655-1660 | one line per visited entry and the count of unreadable ones |
| `HistoryScan.UnreadableCounts` | client/chat.go:1655-1660 | the count is the number of entries neither deleted nor readable, and zero exactly when there is none |
| `HistoryScan.WriteTranscript` | client/chat.go:1655-1680 | from what was visited, newest first, the notice if there is something to say and then one line per message, oldest first |
| `HistoryScan.ExportHistory` | client/chat.go:1649-1680 | the transcript is that suffix oldest first, headed by a notice exactly when partial or partly unreadable, and complete or failed exactly as the scan is |
| `Download.SendDownload` | internal/filetransfer/transfer.go:286-345 | the server's stream carries the file from the offset and its digest, or only an error past the end |
| `Download.DownloadStream` | client/chat.go:1523-1571 | the receiving loop computes the specified output and outcome for any frames and write errors |
| `Download.StreamIsCapped` | client/chat.go:1536-1538 | whatever is sent, a capped download never holds more than its cap |
| `Download.CapOnlyLimits` | client/chat.go:1536-1538 | a cap the stream does not reach changes nothing |
| `Download.CappedDownloadIff` | client/chat.go:1523-1571 | a capped download of a stream that arrives whole and is written ends with the whole file exactly when the file is within the cap, and fails otherwise |
| `Download.OverCapFails` | client/chat.go:1536-1538 | a file longer than the cap fails, from wherever within the cap the download resumes and whatever writes fail |
| `Download.VerifiedMatchesDigest` | client/chat.go:1555-1567 | a verified output is the chunks up to a digest frame that matches it |
| `Download.HonestStream` | client/chat.go:1523-1571 | from a prefix of the file a stream of it only extends the prefix, is verified only with the whole file, and never mismatches |
| `Download.Disk.FinalizeDownloadedPart` | client/files.go:788-796 | remove, then rename |
| `Download.Disk.DownloadProgress` | client/files.go:701-782 | one attempt, with every local failure, and exactly when it reports success |
| `Download.UnchangedFileStaysSafe` | client/files.go:701-796 | after any interrupted attempts on an unchanged file the partial file is a prefix, and the destination is the old one, the whole file, or missing while the partial file is the whole file |
| `Download.UndisturbedAttemptCompletes` | client/files.go:701-796 | from whatever those attempts left, one undisturbed attempt brings the file in |
| `Download.VerifiedIff` | client/chat.go:1523-1571 | a stream of the file at hand is verified exactly when all of it arrives and is written |
| `Download.PartNeverShrinks` | client/files.go:701-782 | no attempt shortens the partial file, except by making it the destination |
| `Download.DestinationLostIff` | client/files.go:788-796 | an attempt on an unchanged file loses the destination exactly when the whole stream arrives and is written and everything but the rename works, and the partial file is then the whole file |
| `Download.FailedRenameLosesDestination` | client/files.go:788-796 | such an attempt |
| `Download.ChangedFileAttempt` | client/files.go:766-774 | after a change, an undisturbed attempt completes exactly when the remnant is a prefix of the new file, and drops the remnant otherwise |
| `Download.ShrunkenFileSticks` | internal/filetransfer/transfer.go:305-307 | with a remnant longer than the file, no number of attempts changes anything |
| `Download.RecoversIffRemnantFits` | client/files.go:766-774 | two undisturbed attempts bring in the changed file exactly when the remnant is no longer than it |
| `Progress.Throttle.FtEmit` | client/files.go:369-399 | whether a report goes out and what is remembered; a terminal one always goes out and clears its key |
| `Progress.EveryEventIsPaidFor` | client/files.go:381-387 | each event after the first is paid for by a full interval or a full step |
| `Progress.HeldBackOnlyCloseBehind` | client/files.go:381-387 | a report is held back only when it is active and one of the same transfer, less than 100 ms and one percent earlier, went out; so every terminal and every first report goes out |
| `Progress.KeyIsTheTransfer` | client/files.go:374 | two reports share a key exactly when identifier, direction and name agree |
| `Progress.ActiveEventsAreBounded` | client/files.go:369-399 | at most 101 active events plus one per 100 ms for a known size, one plus one per 100 ms otherwise |
| `Progress.BetweenTerminals` | client/files.go:369-399 | the bound holds after any terminal event, whatever came before |
| `ReadinessProbe.CachedProbe.constructor` | cmd/server/readiness.go:109-117 | no outcome and nothing in flight |
| `ReadinessProbe.CachedProbe.Lookup` | cmd/server/readiness.go:129-145 | the section that hits, follows or leads |
| `ReadinessProbe.CachedProbe.Abort` | cmd/server/readiness.go:147-152 | a cancelled leader closes its channel and stores nothing |
| `ReadinessProbe.CachedProbe.Store` | cmd/server/readiness.go:155-162 | the outcome is stored with its expiry and the channel closed |
| `ReadinessProbe.ProbesNeverOverlap` | cmd/server/readiness.go:122-167 | in every run at most one caller is inside the probe |
| `ReadinessProbe.ChannelsCloseExactlyOnce` | cmd/server/readiness.go:122-167 | every channel is closed exactly once, or still in flight with a leader to close it |
| `ReadinessProbe.ResultsAreOwnFreshOrCancelled` | cmd/server/readiness.go:122-167 | what is returned is the caller's own probe, one stored less than the time to live ago, or its own cancellation; which value it is, is `ResultsAreWhatProbesReported` |
| `ReadinessProbe.ResultsAreWhatProbesReported` | cmd/server/readiness.go:155-166 | in every run a caller told the outcome of its own probe is told what that probe reported; one served from the cache is told what the probe of the latest store before its lookup reported; both read off the steps |
| `ReadinessProbe.LookupIsExact` | cmd/server/readiness.go:129-145 | in every run a lookup is served exactly when the latest store is less than the time to live ago, else follows exactly when somebody leads, else leads |
| `ReadinessProbe.TalliesAreRead` | cmd/server/readiness.go:136-152 | the counters in the bounds below are the wake-ups of the caller, the aborts and the lookups over an expired outcome of the run |
| `ReadinessProbe.RetriesAreBounded` | cmd/server/readiness.go:136-143 | retries are at most the leaderships given up, plus one, plus those claimed over an expired outcome |
| `ReadinessProbe.NothingClaimedOverExpired` | cmd/server/readiness.go:130-134 | while the clock stays before expiry no leadership is claimed over a stored outcome |
| `ReadinessProbe.RetriesBeforeExpiry` | cmd/server/readiness.go:136-143 | while the clock stays before expiry, retries are at most the leaderships given up, plus one |
| `ReadinessProbe.RunKeepsInv` | cmd/server/readiness.go:122-167 | the cache invariant holds in every reachable state |

## Left out

- The 64-bit counters (epochs, generations, tokens, clocks) are unbounded integers; their wrap-around is not modelled.
- TLS dialing, handshake, heartbeats and frame encoding; a transport is a name and a frame is its meaning.
- Effects after the dispatch section, such as cached snapshots and emits: only the claim is atomic with the source check.
- Entry points outside the gated protocols: transfers tracked without an epoch, the ungated cache put, and the single-claim pull functions.
- Order between concurrent relays of one tab: the publication results count events, and order them only within a replay.
- The notices sent when a tab is updated or intentionally disconnected, and the mention matching of chat text, which is an input here.
- RemoveFailed step of the publication system: only for a tab that is not active, which is how the program uses it; the general case is `Tabs.RemoveIsSafeIffInactive`.
- Crashing decrypt workers: a worker that panics is not modelled.
- Maps nested by scope and key id are one map keyed by both.
- The ciphers and hashes themselves: the chunk cipher is any function pair with the law of an authenticated cipher, and SHA-256 is taken as collision-free.
- JSON encoding, file permissions and the migration of old settings files: settings are compared as values, and a loaded file counts only through what normalization makes of it.
- The startup restore of the window opacity and switching a hotkey profile: both bypass the generation gate.
- Asynchronous hotkey registration: which of two quick rebinds wins depends on the scheduler.
- Two downloads into the same destination at once, and durability of written bytes across a crash.
- The store edits and tombstones messages in place during a scan; the scan results are about the ids met, so the body shown may be of any moment.
- A probe that panics, and the composition of readiness components around the probe.
- Progress.KeyIsTheTransfer: for identifiers and directions without a NUL, which are all there are; the program puts one between the parts of a key.
- Progress.ActiveEventsAreBounded: assumes one total for the whole transfer, as both callers have, because a changing total changes the step.
- The rest of the client (user interface, native dialogs, updater, identity files) and of the server.
