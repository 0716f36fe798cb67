# Verified model of the plgd hub's cloud-to-cloud and CoAP session logic

This project models the parts of the plgd hub where state, concurrency and formats meet, and proves what they
are for. `dafny verify dfyconfig.toml` checks all of it.

**The subscription cache of the cloud-to-cloud connector** (`records`, `supported_events`, `cache_tree`,
`cache_laws`, `subscription_tasks`, `cache_objects`, `resubscribe`). A tree cloud → linked account → device →
resource with one subscription slot on each of the last three levels, and beside it a flat index by subscription
ID. `CacheObjects` has the classes of the original, updated in place, one class a level; `CacheTree` has the same
operations as functions on values, and every method is proved against its function. About the functions it is
proved that index and tree agree after any sequence of operations, that pulling out a subtree is exact, and that
resubscription converges, however the requests, responses and first events of the tasks interleave.

**The subscribe protocol and restart** (`subscription_manager`, `event_laws`, `store`). The HTTP response and the
first event of a subscription may arrive in either order; both orders end in the same state, unless a cancellation
overtakes the response, and then exactly under a stated condition. What an event does is stated exactly: the record it
is about, its status, what it stores, removes and triggers; one with a wrong signature is refused. The store keeps clouds and accounts in a database as well; a
restart finds them again at every point of a run exactly if each operation of the run meets a stated condition, and
what is resubscribed after it is stated exactly.

**Event headers** (`decimal`, `event_header`). What the gateway prints the connector parses, and both compute the
same signature; which subscription IDs the signed string keeps apart is stated exactly.

**Concurrent protocols of the CoAP gateway and of the connector's task processor** (`single_flight`,
`refresh_fanout`, `sign_off`, `task_processor`). Each is a state machine over labelled steps; a run is any list of
steps that is possible from the start, so every theorem is about every interleaving.

**Transformers** (`hrefs`, `batch_reorder`, `observe`). The href normal form, the device prefix of hrefs, the
batch reordering by ETag, and the version filter of an observation.

## Conventions

- A Go string or byte slice is a sequence of characters, one a byte. Numbers with a width (`uint64` sequence
  numbers, `int64` timestamps, the 32-bit observe counter, the 63-bit semaphore weight) have it written out.
- The kit `sync.Map` is a map, whose iteration order is arbitrary; the go-coap cache is a map whose entries may
  disappear (`DropParked`); a future is a write-once cell; `semaphore.Weighted`, `http.Header` and `strconv` follow
  their documented contracts; the HMAC is any function of key and message; the database is two maps with the
  validation and the duplicate and not-found errors of the MongoDB store.
- Header names are compared as written; Go compares them in canonical form, which keeps the names used here distinct.
- `hide` only keeps definitions out of proofs that do not need them.

## Where the code is not what one might expect

- `LoadSubscription` answers "found" with empty data when the account of an indexed subscription is gone
  (cache.go:411-413). The model does the same; `DanglingBranchUnreachable` shows that this cannot happen.
- A parked request stays parked after a successful response; only the first event or its expiry removes it.
- The first event of a parked request stores the subscription before its signature is looked at
  (subscriptions.go:166-206), so an event with a wrong signature can do that much (`UnsignedEventIsRefused`).
- The token caches keep failures too, although the comment speaks of the token only: after a failed exchange every
  caller with the same code gets that error, exactly until the cache is cleared or another code is used
  (`CallsAgainExactly`, `FailureStaysExactly`, `FailureIsShared`).
- `refresh` cancels the other providers on any reply without an error, also on one without a token. While the
  caller's context lasts, only then can the order of completion decide between a token and an error
  (`OrderDoesNotMatter`); both providers of the hub always reply with one of the two. If the caller's context ends
  first, providers that would succeed may fail instead (`EndedContext`, `OutcomeIsCertain`).
- A cancellation that arrives before the HTTP response is undone by the response, exactly if the requested slot was
  free or held by the same ID (`CancelOvertakesResponse`).
- `TaskProcessor.Run` need not return: once its drain has found the channel empty nobody reads any more, and a
  running task blocks for good in `Trigger` if the running tasks trigger more than the channel holds
  (`ReturnsExactlyIfItFits`, `EveryRunReturns`, `SomeRunsNeverReturn`). It can always return exactly if `maxParallel`
  times the most a task triggers fits into the channel; if others trigger tasks after the drain as well, exactly if
  tasks trigger nothing (`BoundedTasksAlwaysReturn`).
- The guard's key joins user and device ID with a dot, so pairs with dots in their IDs can share a key
  (`KeysCollideExactly`).
- Creating a cloud under the ID of a removed one makes a restart differ from the live cache
  (`ReusedCloudIdIsNotRecoverable`); cloud IDs are random, so a caller meets the condition.
- Of several batch entries with the ETag of the message all but the last are lost (`ReorderIsPermutation`).
- The signed string does not delimit the subscription ID. Two IDs can be confused exactly when one is the other
  followed by a colon and a printed sequence number, and that by nothing or by a colon and a printed timestamp, and
  that by nothing or by a colon and anything (`Continues`, `IdsCollideExactly`). The gateway's own IDs are UUIDs and
  hold no colon.

## Model

| member | source | states |
|---|---|---|
| SupportedEvents.MakeMap | cloud2cloud-connector/store/linkedCloud.go:24-30 | the map has exactly the given events as keys |
| SupportedEvents.NeedPullDevices | cloud2cloud-connector/store/linkedCloud.go:32-38 | true exactly when some devices event is not supported |
| SupportedEvents.NeedPullDevice | cloud2cloud-connector/store/linkedCloud.go:40-49 | true exactly when some device event is not supported and device events are not static |
| SupportedEvents.NeedPullResources | cloud2cloud-connector/store/linkedCloud.go:51-57 | true exactly when some resource event is not supported |
| SupportedEvents.EventNames | cloud2cloud-connector/store/linkedCloud.go:14-57 | what each level needs, by the names of the events: four for devices, two for a device unless its events are static, one for a resource |
| CacheTree.PutGet | cloud2cloud-connector/service/cache.go:90-106 | a stored slot reads back, every other slot reads as before, whatever nodes were created on the way |
| CacheLaws.IndexAgreesWithTree | cloud2cloud-connector/service/cache.go:353-363 | in a consistent state a subscription is indexed under its ID exactly when it sits in its own slot; no two slots share an ID |
| CacheLaws.DanglingBranchUnreachable | cloud2cloud-connector/service/cache.go:404-420 | an indexed subscription always has its account, so loading never changes the cache and finds exactly the indexed IDs |
| CacheLaws.CreateSubEffect | cloud2cloud-connector/service/cache.go:496-514 | a new ID with a free slot fills exactly that slot and index entry; in every other case nothing changes at all |
| CacheLaws.PullOutSubEffect | cloud2cloud-connector/service/cache.go:516-535 | succeeds exactly for indexed IDs, empties exactly that slot, drops exactly that entry |
| EventLaws.PullOutAnswers | cloud2cloud-connector/service/cache.go:516-535 | what it hands back: the indexed record with the cloud and account it belongs to, nothing else otherwise |
| EventLaws.CreateRecordAnswers | cloud2cloud-connector/service/cache.go:461-483 | the cloud or account handed back is the one now held, `loaded` says it was there before, an account is refused exactly without its cloud |
| CacheLaws.IdsAreThoseCovered | cloud2cloud-connector/service/cache.go:537-559 | the IDs gathered by the nested clean-up loops are exactly those of the slots below the named node |
| CacheLaws.PullOutIsExact | cloud2cloud-connector/service/cache.go:561-614 | removing a cloud, account, device or resource empties exactly the slots below it and drops exactly their subscriptions; all else stays |
| CacheLaws.ApplyKeepsConsistent | cloud2cloud-connector/service/cache.go:461-614 | each cache operation keeps index and tree in agreement |
| CacheLaws.RunKeepsConsistent | cloud2cloud-connector/service/cache.go:461-614 | so does every sequence of them |
| CacheLaws.EveryReachableStateAgrees | cloud2cloud-connector/service/cache.go:353-363 | the agreement as an equivalence, for every state reachable from a new cache |
| CacheObjects.ResourceData.LoadOrCreate | cloud2cloud-connector/service/cache.go:21-30 | keeps and returns the subscription that is there, else stores the given one |
| CacheObjects.ResourceData.PullOut | cloud2cloud-connector/service/cache.go:32-45 | empties the slot exactly when it holds the given ID |
| CacheObjects.ResourceData.DumpTasks | cloud2cloud-connector/service/cache.go:61-74 | one task for a free slot, none for a taken one |
| CacheObjects.DeviceData.LoadOrCreate | cloud2cloud-connector/service/cache.go:90-106 | the slot the type selects, with its resource node created when missing |
| CacheObjects.DeviceData.PullOut | cloud2cloud-connector/service/cache.go:108-129 | empties the selected slot exactly when it holds the given ID |
| CacheObjects.DeviceData.DumpTasks | cloud2cloud-connector/service/cache.go:161-184 | returns, once each, the tasks of an unguarded traversal of the device |
| CacheObjects.LinkedAccountData.LoadOrCreate | cloud2cloud-connector/service/cache.go:202-218 | as on the device level, over three levels of slots and in a heap of shared objects |
| CacheObjects.LinkedAccountData.PullOut | cloud2cloud-connector/service/cache.go:220-241 | empties the selected slot exactly when it holds the given ID |
| CacheObjects.LinkedAccountData.DumpTasks | cloud2cloud-connector/service/cache.go:280-303 | early exits change nothing: the tasks are those of the unguarded traversal, once each |
| CacheObjects.CloudData.DumpTasks | cloud2cloud-connector/service/cache.go:339-351 | the same one level up |
| CacheObjects.Cache.DumpTasks | cloud2cloud-connector/service/cache.go:666-675 | the same for the whole tree |
| CacheObjects.Cache.LoadDevice | cloud2cloud-connector/service/cache.go:378-389 | finds the objects on the path exactly when all three levels exist |
| CacheObjects.Cache.LoadLinkedAccount | cloud2cloud-connector/service/cache.go:391-402 | finds cloud and account exactly when both exist |
| CacheObjects.Cache.LoadSubscription | cloud2cloud-connector/service/cache.go:404-420 | looks up by ID, the dangling branch included |
| CacheObjects.Cache.LoadDevicesSubscription | cloud2cloud-connector/service/cache.go:422-433 | answers "subscribed" exactly for a filled account slot; account and cloud come along whenever the account is there |
| CacheObjects.Cache.LoadDeviceSubscription | cloud2cloud-connector/service/cache.go:435-446 | the same for a device slot |
| CacheObjects.Cache.LoadResourceSubscription | cloud2cloud-connector/service/cache.go:448-459 | the same for a resource slot |
| CacheObjects.Cache.LoadOrCreateCloud | cloud2cloud-connector/service/cache.go:461-466 | keeps a cloud that is there, else files the new one under its ID |
| CacheObjects.Cache.LoadCloud | cloud2cloud-connector/service/cache.go:468-471 | returns the cloud; a missing one is a crash in the original and a precondition here |
| CacheObjects.Cache.LoadOrCreateLinkedAccount | cloud2cloud-connector/service/cache.go:473-483 | refuses an account without its cloud, keeps one that is there, else files the new one |
| CacheObjects.Cache.UpdateLinkedAccount | cloud2cloud-connector/service/cache.go:485-494 | replaces exactly the account record, slots untouched |
| CacheObjects.Cache.LoadOrCreateSubscription | cloud2cloud-connector/service/cache.go:496-514 | the new tree, index and answer as a function of the old ones |
| CacheObjects.Cache.PullOutSubscription | cloud2cloud-connector/service/cache.go:516-535 | likewise |
| CacheObjects.Cache.CleanUpDeviceSubscriptions | cloud2cloud-connector/service/cache.go:552-559 | drops exactly the IDs subscribed in the device |
| CacheObjects.Cache.CleanUpLinkedAccountSubscriptions | cloud2cloud-connector/service/cache.go:543-550 | drops exactly the IDs subscribed in the account |
| CacheObjects.Cache.PullOutCloud | cloud2cloud-connector/service/cache.go:561-571 | prunes the cloud and its IDs and hands back that very object, its contents as they were |
| CacheObjects.Cache.PullOutLinkedAccount | cloud2cloud-connector/service/cache.go:573-586 | the same for an account |
| CacheObjects.Cache.PullOutDevice | cloud2cloud-connector/service/cache.go:588-600 | the same for a device |
| CacheObjects.Cache.PullOutResource | cloud2cloud-connector/service/cache.go:602-614 | the same for a resource |
| SubscriptionTasks.DeviceTasksGathered | cloud2cloud-connector/service/cache.go:161-184 | what the guarded device loop gathers is the unguarded set of tasks |
| SubscriptionTasks.AccountTasksGathered | cloud2cloud-connector/service/cache.go:280-303 | the same for an account |
| SubscriptionTasks.CloudTasksGathered | cloud2cloud-connector/service/cache.go:339-351 | the same for a cloud |
| Resubscribe.TasksAreThePendingSlots | cloud2cloud-connector/service/cache.go:666-675 | there is a task exactly for each existing, free slot that the cloud's supported events call for |
| Resubscribe.TaskIsPending | cloud2cloud-connector/service/cache.go:666-675 | a task names its slot, so there is one task a slot |
| Resubscribe.TasksNamed | cloud2cloud-connector/service/cache.go:61-74 | the tasks by the names of the events: which supported events call for a task at which free slot, and that it carries the records of the cloud and the account that slot is in |
| Resubscribe.TaskIsRequested | cloud2cloud-connector/service/deviceSubscription.go:20-49 | the subscribe request of a listed task finds the slot free and parks a record for exactly that slot |
| Resubscribe.ResponseRemovesTask | cloud2cloud-connector/service/deviceSubscription.go:50-63 | its response stores the record in that slot and takes exactly that task off the list |
| Resubscribe.StoringRemovesExactlyThatTask | cloud2cloud-connector/service/cache.go:496-514 | a subscription with a new ID takes exactly its own task off the list, which gets shorter by one |
| Resubscribe.StoreKeepsRound | cloud2cloud-connector/service/cache.go:496-514 | with several requests on the way the first of them takes its task off the list, later ones for the same task change nothing |
| Resubscribe.RoundLeavesTheRest | cloud2cloud-connector/service/subscriptions.go:270-287 | however requests, refusals, responses and first events interleave, exactly the tasks of which no request was answered remain |
| Resubscribe.FullRoundConverges | cloud2cloud-connector/service/subscriptions.go:270-287 | once a request for every listed task has been answered no task is left |
| Resubscribe.TriggeredAreWanted | cloud2cloud-connector/service/devicesSubscription.go:91-121 | the tasks an event triggers are for slots its cloud's supported events call for, in the account of the event, one for an item that was accepted |
| EventLaws.TriggeredExactly | cloud2cloud-connector/service/devicesSubscription.go:91-121 | a list of items triggers a task exactly if one of them was accepted and the cloud's events call for that task: a pull of the device, its subscription, or that of a resource |
| Resubscribe.TasksAfterRestart | cloud2cloud-connector/service/store.go:49-69 | after a restart exactly the devices subscriptions of the accounts whose cloud is in the database and supports devices events are asked for |
| Resubscribe.RestartAsksForLiveAccounts | cloud2cloud-connector/service/store.go:49-69 | after a restart of a recoverable store, exactly those of the accounts it had |
| SubscriptionManager.StoringTwice | cloud2cloud-connector/service/cache.go:496-514 | storing the same subscription again changes nothing and gives the same subscription back |
| SubscriptionManager.ResponseAndFirstEventCommute | cloud2cloud-connector/service/subscriptions.go:166-189 | response then first event and first event then response end in the same state with the same answers |
| SubscriptionManager.OutcomeOfTheRace | cloud2cloud-connector/service/deviceSubscription.go:46-63 | that state: the requested slot filled if it was free, else the cache as it was; nothing parked |
| SubscriptionManager.StoredInOneSlotOrNone | cloud2cloud-connector/service/subscriptions.go:166-189 | a new ID ends in exactly the requested slot if that was free and in none otherwise |
| SubscriptionManager.LaterEventsChangeNothing | cloud2cloud-connector/service/subscriptions.go:183-188 | an event with nothing parked changes nothing and is known exactly if its ID is indexed |
| SubscriptionManager.CancelOvertakesResponse | cloud2cloud-connector/service/subscriptions.go:256-262 | cancelled after the response the subscription is gone; cancelled before it, it is back exactly if its slot was free or held by the same ID, and the two end states are equal exactly if not |
| SubscriptionManager.NewIdCancelOvertakesResponse | cloud2cloud-connector/service/deviceSubscription.go:50-63 | for a new ID: exactly if the requested slot was free |
| SubscriptionManager.GatewayEventIsAccepted | cloud2cloud-connector/service/subscriptions.go:191-236 | the gateway's first event for a parked request passes parsing and signature check and stores the subscription by itself |
| SubscriptionManager.GatewayCancelIsAccepted | cloud2cloud-connector/service/subscriptions.go:213-220 | the gateway's cancellation takes exactly that subscription out again |
| SubscriptionManager.EveryRunKeepsOrder | cloud2cloud-connector/service/subscriptions.go:166-262 | requests, responses, whole events, expiries and store operations in any order keep index and tree in agreement and the records of cache and database under their own IDs |
| EventLaws.ReceiveAnswers | cloud2cloud-connector/service/subscriptions.go:166-189 | which record an event finds: exactly if its ID is indexed or it stores the parked request; that record has the event's ID; with a parked request the failures are exactly a missing account and a slot held by another subscription |
| EventLaws.ReceiveEffect | cloud2cloud-connector/service/subscriptions.go:166-189 | the parked request is gone; its record is stored exactly if its ID is new, its account there and its slot free, and nothing else changes |
| EventLaws.UnsignedEventIsRefused | cloud2cloud-connector/service/subscriptions.go:197-206 | an event not signed with the secret of its record is a bad request whatever it says: no task, no removal, no tokens; with nothing parked no change at all |
| EventLaws.StatusOfEvent | cloud2cloud-connector/service/subscriptions.go:191-236 | the status of every event, each as an equivalence: gone, server error, OK, and so bad request; OK implies a right signature |
| EventLaws.CancellationIsExact | cloud2cloud-connector/service/subscriptions.go:213-220 | a signed cancellation leaves neither slot nor index entry of its subscription, parked or stored, and touches no other |
| EventLaws.EventRemovesExactly | cloud2cloud-connector/service/deviceSubscription.go:151-175 | any other signed event removes exactly the unregistered devices or the unpublished resources it names, in its account and, for resources, on the device of its subscription |
| EventLaws.TasksOfEvent | cloud2cloud-connector/service/subscriptions.go:222-235 | the tasks of a signed event are exactly those of its accepted items, with the renewed tokens of the account |
| EventLaws.BeginAnswers | cloud2cloud-connector/service/deviceSubscription.go:20-49 | when a request is parked, and with what: no ID yet, its own secret and correlation ID, its cloud and account; no other request is touched |
| EventLaws.RespondAnswers | cloud2cloud-connector/service/deviceSubscription.go:50-69 | a refused request is unparked and only that; a granted one fills its slot exactly if that is free and its ID new; it fails only without its account, and then is cancelled at the remote |
| EventLaws.CancelledWhereSubscribed | cloud2cloud-connector/service/deviceSubscription.go:71-92 | a subscription is cancelled at the address it was asked for, followed by its ID |
| SubscriptionManager.Manager.BeginSubscribeToDevices | cloud2cloud-connector/service/devicesSubscription.go:21-50 | does nothing for a filled slot, else parks the request under its correlation ID |
| SubscriptionManager.Manager.BeginSubscribeToDevice | cloud2cloud-connector/service/deviceSubscription.go:20-49 | the same for a device |
| SubscriptionManager.Manager.BeginSubscribeToResource | cloud2cloud-connector/service/resourceSubscription.go:18-50 | the same for a resource |
| SubscriptionManager.Manager.FinishSubscribe | cloud2cloud-connector/service/deviceSubscription.go:50-69 | a failed request is unparked; a granted one is stored, and then put into the projection if it is for a device, which may fail and leaves it stored, or cancelled at the remote if it cannot be stored |
| SubscriptionManager.Manager.GetSubscriptionData | cloud2cloud-connector/service/subscriptions.go:166-189 | the first event stores and unparks, later ones look up; each error case told apart (what the answers mean is `EventLaws.ReceiveAnswers`) |
| SubscriptionManager.Manager.HandleCancelEvent | cloud2cloud-connector/service/subscriptions.go:256-262 | pulls the subscription out |
| SubscriptionManager.RemovalIsExact | cloud2cloud-connector/service/devicesSubscription.go:123-147 | the removals of one event, in any order and with repetitions, empty exactly the slots below the nodes it names |
| SubscriptionManager.UnregisteredDevicesAreGone | cloud2cloud-connector/service/subscriptions.go:191-236 | a signed event about unregistered devices takes exactly those devices with all their subscriptions out of the account it belongs to, and leaves its own subscription |
| SubscriptionManager.Manager.RefreshTokens | cloud2cloud-connector/service/pull.go:342-368 | new target tokens go with the account into database and cache, either of which may refuse; new origin tokens alone are not stored |
| EventLaws.RenewedTokensAreStored | cloud2cloud-connector/service/pull.go:342-368 | the database and the cache then hold the account with exactly the two tokens; every other account, all slots, the index and the parked requests stay; it succeeds exactly if both take the account |
| SubscriptionManager.Manager.HandleDevicesRegistered | cloud2cloud-connector/service/devicesSubscription.go:91-121 | for each device the identity store takes, a pull if device events are static, else a subscription unless the device has to be polled |
| SubscriptionManager.Manager.HandleResourcesPublished | cloud2cloud-connector/service/deviceSubscription.go:102-146 | for each resource published, a subscription unless resources have to be polled |
| SubscriptionManager.Manager.Dispatch | cloud2cloud-connector/service/subscriptions.go:222-235 | the handler the subscription type selects: what it removes, what tasks it triggers and which event types it turns down |
| SubscriptionManager.Manager.HandleEvent | cloud2cloud-connector/service/subscriptions.go:191-236 | the checks in their order, the status of each outcome, the new state of cache, database and parked requests, and the tasks triggered (what they mean are the rows of `EventLaws`) |
| Store.CreateCloudRecovers | cloud2cloud-connector/service/store.go:71-78 | creating a cloud keeps the store recoverable exactly when no account in the database refers to its ID |
| Store.CreateAccountRecovers | cloud2cloud-connector/service/store.go:84-90 | creating an account always does, also when its cloud is missing |
| Store.UpdateAccountRecovers | cloud2cloud-connector/service/store.go:92-98 | updating one does exactly when it stays with its cloud or neither cloud exists |
| Store.RemoveCloudRecovers | cloud2cloud-connector/service/store.go:128-134 | removing a cloud does, its accounts being orphaned in the database |
| Store.RemoveAccountRecovers | cloud2cloud-connector/service/store.go:136-142 | removing an account does |
| Store.SafeIsExact | cloud2cloud-connector/service/store.go:71-150 | one operation keeps the store recoverable exactly if it meets the condition for its kind |
| Store.RunIsRecoverable | cloud2cloud-connector/service/store.go:71-150 | a store stays recoverable at every point of a run exactly if every operation of the run meets its condition |
| Store.RunFromEmptyIsRecoverable | cloud2cloud-connector/service/store.go:49-69 | the same for a run from nothing |
| Store.ReusedCloudIdIsNotRecoverable | cloud2cloud-connector/service/store.go:71-78 | four operations after which it does not |
| Store.LoadersRebuild | cloud2cloud-connector/service/store.go:49-69 | the loaders rebuild the same clouds and accounts whatever the order of the records, skipping orphans |
| Store.CloudLoader | cloud2cloud-connector/service/store.go:20-29 | inserts every cloud of the cursor |
| Store.LinkedAccountLoader | cloud2cloud-connector/service/store.go:35-47 | inserts every account of the cursor whose cloud is there |
| Store.Database.InsertLinkedCloud | cloud2cloud-connector/store/mongodb/linkedClouds.go:54-66 | stores a valid cloud with a new ID, else fails without effect |
| Store.Database.RemoveLinkedCloud | cloud2cloud-connector/store/mongodb/linkedClouds.go:68-81 | removes exactly that cloud or fails |
| Store.Database.InsertLinkedAccount | cloud2cloud-connector/store/mongodb/linkedAccounts.go:36-48 | stores a valid account with a new ID, else fails without effect |
| Store.Database.UpdateLinkedAccount | cloud2cloud-connector/store/mongodb/linkedAccounts.go:50-65 | replaces a valid account that is there, else fails without effect |
| Store.Database.RemoveLinkedAccount | cloud2cloud-connector/store/mongodb/linkedAccounts.go:67-79 | removes exactly that account or fails |
| Store.ConnectorStore.constructor | cloud2cloud-connector/service/store.go:49-69 | a store opened on any database is recoverable and has no subscriptions |
| Store.ConnectorStore.LoadOrCreateCloud | cloud2cloud-connector/service/store.go:71-78 | database first, then cache, whose answer it gives |
| Store.ConnectorStore.LoadOrCreateLinkedAccount | cloud2cloud-connector/service/store.go:84-90 | database first, then cache, whose answer or refusal it gives |
| Store.ConnectorStore.UpdateLinkedAccount | cloud2cloud-connector/service/store.go:92-98 | database first, then cache; the cache may refuse |
| Store.ConnectorStore.PullOutCloud | cloud2cloud-connector/service/store.go:128-134 | cache first, then database; the object taken out is handed back |
| Store.ConnectorStore.PullOutLinkedAccount | cloud2cloud-connector/service/store.go:136-142 | cache first, then database; the object taken out is handed back |
| Decimal.ParseUintInvertsFormat | cloud2cloud-connector/events/event.go:99-102 | a printed number parses back exactly if it fits into 64 bits |
| Decimal.ParseIntInvertsFormat | cloud2cloud-connector/events/event.go:108-111 | the same with a sign |
| EventHeader.CalculateEventSignature | cloud2cloud-connector/events/event.go:156-170 | the pieces written into the hash make up the signed string |
| EventHeader.IdsCollideExactly | cloud2cloud-connector/events/event.go:156-170 | some string reads as a message of either of two IDs exactly when one ID continues the other |
| EventHeader.ContinuingIdsCollide | cloud2cloud-connector/events/event.go:156-170 | the two messages, for every such pair of IDs |
| EventHeader.FramingIsUnambiguous | cloud2cloud-connector/events/event.go:156-170 | over any set of IDs, equal signed strings mean equal parts, whatever the bodies, exactly when no ID continues another |
| EventHeader.ColonFreeIdsAreUnambiguous | cloud2cloud-connector/events/event.go:156-170 | IDs without colons are never confused |
| EventHeader.ColonInIdIsAmbiguous | cloud2cloud-connector/events/event.go:156-170 | a family of collisions: a body that starts with two numbers against a longer ID |
| EventHeader.GetEncoder | cloud2cloud-gateway/service/httpApi.go:116-126 | the first entry of the list that can be produced, none before it can, and an error exactly if none can |
| EventHeader.NegotiatedIsSupported | cloud2cloud-gateway/service/httpApi.go:116-126 | it is one of the two the connector accepts, and missing exactly when neither is acceptable |
| EventHeader.MakeEmitEventRequest | cloud2cloud-gateway/service/emitEvent.go:36-90 | the request with all its headers, signature last, carrying what the negotiated encoder made of the representation, or the error of the URL or the encoding |
| EventHeader.RequestCarriesContent | cloud2cloud-gateway/service/emitEvent.go:24-90 | there is a request exactly if there is nothing to encode or the negotiated encoder succeeds; its body is what that encoder made of the representation, its content type the first encodable one asked for; each header holds its value and the signature is over them |
| EventHeader.EventRoundTrip | cloud2cloud-connector/events/event.go:65-139 | the connector accepts an emitted event exactly when it has an ID, a known type, and a body unless it is a cancellation; it recovers every field and the encoded content, and the signature it recomputes is the one sent |
| EventHeader.AcceptedExactly | cloud2cloud-connector/events/event.go:65-139 | which requests from anybody are accepted, as an equivalence over their headers, what is read off them, and which header an error names |
| SingleFlight.TokenCache.GetFutureToken | coap-gateway/service/exchangeCache.go:28-38 | elects the caller exactly when there is no future for the code |
| SingleFlight.TokenCache.Clear | coap-gateway/service/refreshCache.go:108-113 | empties the cell |
| SingleFlight.AnswerIsForTheCode | coap-gateway/service/exchangeCache.go:41-63 | an answer a caller gets is that of a provider call for its own code |
| SingleFlight.AnswersAreReturned | coap-gateway/service/exchangeCache.go:41-63 | the elected caller returns what its provider answers and puts it into its future; a caller that wakes returns what its future holds |
| SingleFlight.SharersAgree | coap-gateway/service/refreshCache.go:84-106 | callers that share a future get the same answer |
| SingleFlight.SingleFlightHolds | coap-gateway/service/exchangeCache.go:28-71 | two elections for the same code have a Clear or an election for another code between them; each leads to at most one provider call |
| SingleFlight.WaitersAreServed | coap-gateway/service/exchangeCache.go:46-57 | a waiter can wake or its elected caller is still at work |
| SingleFlight.FailureIsKept | coap-gateway/service/exchangeCache.go:41-63 | who enters while the cell holds a failure for his code can only get that failure or give up, whatever happens later |
| SingleFlight.CallsAgainExactly | coap-gateway/service/exchangeCache.go:28-38 | a caller asks the provider exactly if nothing was elected since the last Clear or the last election was for another code |
| SingleFlight.FailureStaysExactly | coap-gateway/service/refreshCache.go:72-82 | the cell keeps a failure exactly as long as there is no Clear and no caller with another code |
| SingleFlight.FailureIsShared | coap-gateway/service/exchangeCache.go:41-63 | a run in which a second caller is given the error of the first without a call of his own |
| RefreshFanOut.FirstTokenIsFirst | coap-gateway/service/refreshCache.go:42-52 | the token kept is that of the first successful reply |
| RefreshFanOut.ReturnsFirstTokenOrError | coap-gateway/service/refreshCache.go:30-70 | a run that returns gives the first token received if any provider succeeded, else the first error, else the fixed one; never both, never neither |
| RefreshFanOut.OutcomeOfTheProviders | coap-gateway/service/refreshCache.go:39-56 | the token returned is one that an accepted provider gives of itself, though the others are cancelled; there is one if such a provider exists, none replies with neither token nor error and the caller's context lasts |
| RefreshFanOut.SomeOrderFails | coap-gateway/service/refreshCache.go:47-50 | with a reply of neither, or a context at its end, there is an order of completion that ends in an error |
| RefreshFanOut.OrderDoesNotMatter | coap-gateway/service/refreshCache.go:30-70 | while the caller's context lasts, the outcome is in every order a token exactly if some accepted provider would succeed; this fails exactly when besides it one would reply with neither token nor error |
| RefreshFanOut.EndedContext | coap-gateway/service/refreshCache.go:31-32 | if the caller's context ends first some run yields an error, whatever the providers would reply |
| RefreshFanOut.OutcomeIsCertain | coap-gateway/service/refreshCache.go:30-70 | with contexts that may end, the kind of outcome is certain exactly when no accepted provider would succeed |
| RefreshFanOut.SameKindOfOutcome | coap-gateway/service/refreshCache.go:30-70 | with providers that reply with one of the two and a context that lasts, two runs never differ in kind |
| RefreshFanOut.EverySlotReleasedOnce | coap-gateway/service/refreshCache.go:37-59 | the wait group counts exactly the tasks still to finish; after the return every task was turned away or ran to its end |
| RefreshFanOut.OneReplyATask | coap-gateway/service/refreshCache.go:39-53 | each accepted task replies exactly once |
| SignOff.NotifyLetsInTheFirst | coap-gateway/service/signOff.go:127-131 | a release lets in exactly the sign-off that waited longest, and only when nothing is held |
| SignOff.SignOffExcludesCommands | coap-gateway/service/signOff.go:127-131 | the weight held is one a command and everything for a sign-off, so the two never overlap and sign-offs never overlap |
| SignOff.NoCommandStarts | coap-gateway/service/session.go:609-613 | from the moment a sign-off waits commands only end |
| SignOff.CommandIsLetInExactly | coap-gateway/service/session.go:609-613 | in every run a command is let in exactly if no sign-off waits or is active |
| SignOff.LastCommandLetsSignOffIn | coap-gateway/service/session.go:534-539 | the end of the last command admits the waiting sign-off at once |
| SignOff.DrainingLetsSignOffIn | coap-gateway/service/signOff.go:123-131 | it is admitted after as many endings as there are commands in flight, in any order |
| SignOff.ClaimsAfter | coap-gateway/service/signOff.go:127-131 | only its own steps give a sign-off a place at the semaphore or take it away |
| SignOffHandler.DeletionsAreExclusive | coap-gateway/service/signOff.go:127-172 | in every run of handlers and commands, from acquire to release, and so at each deletion, no command is under way and no other sign-off is active |
| SignOffHandler.DeletionsAreOrdered | coap-gateway/service/signOff.go:133-172 | the effects of a sign-off are the first few of the list in its order, all of them exactly when it answers Deleted, and never mixed with those of another |
| SignOffHandler.OutcomesDecide | coap-gateway/service/signOff.go:111-172 | in every run the outcomes of a handler's steps decide where it is and what it has done: a failed step is the last and gives the answer, any effect implies that verification succeeded, and Deleted is answered exactly if all six steps were taken and none failed |
| SignOffHandler.FailureIsFinal | coap-gateway/service/signOff.go:133-172 | after a failed step a handler has no further effect, whatever follows, and leaves with the answer to that failure |
| SignOffHandler.NothingLeaks | coap-gateway/service/signOff.go:111-131 | whichever way the handlers ended, once all have and no command is under way the semaphore is as new |
| SignOffHandler.LeavingHandsOn | coap-gateway/service/signOff.go:131 | the release frees everything or hands everything on to the sign-off that waited longest |
| TaskProcessor.TasksAreConserved | cloud2cloud-connector/service/taskProcessor.go:112-174 | each triggered task is in exactly one place; at most maxParallel run, each with a permit |
| TaskProcessor.NothingRunsAfterReturn | cloud2cloud-connector/service/taskProcessor.go:147-174 | when Run returns nothing runs and every task the drain saw has finished or was dropped |
| TaskProcessor.DispatchedInOrder | cloud2cloud-connector/service/taskProcessor.go:129-145 | tasks are dispatched first come, first served |
| TaskProcessor.LoadNeverFalls | cloud2cloud-connector/service/taskProcessor.go:61-63 | after the drain, what is on the channel and what running tasks will put there never gets less |
| TaskProcessor.ReturnsExactlyIfItFits | cloud2cloud-connector/service/taskProcessor.go:147-174 | Run can return as long as the loop reads; after the drain exactly if the channel has room for all that the running tasks will trigger |
| TaskProcessor.EveryRunReturns | cloud2cloud-connector/service/taskProcessor.go:161-163 | in that case every run without triggers from outside goes on until Run has returned, after a number of steps known at the drain |
| TaskProcessor.BoundedTasksAlwaysReturn | cloud2cloud-connector/service/taskProcessor.go:48-59 | with a bound on what a task triggers, Run can always return exactly if maxParallel times the bound fits into the channel; with triggers from outside after the drain, exactly if tasks trigger nothing |
| TaskProcessor.SomeRunsNeverReturn | cloud2cloud-connector/service/taskProcessor.go:147-174 | a run that cannot return, for every size of the channel and every degree of parallelism |
| PullGuard.OnePullADevice | cloud2cloud-connector/service/taskProcessor.go:65-83 | the guard's map always holds exactly the keys being pulled or pulled |
| PullGuard.PullStartsExactly | cloud2cloud-connector/service/taskProcessor.go:65-83 | in every run a pull starts exactly if its key is neither being pulled nor pulled; after a failure it may be repeated, after a success not |
| PullGuard.NoPullAfterSuccess | cloud2cloud-connector/service/taskProcessor.go:65-83 | at most one pull of a key at a time, none after one has succeeded |
| PullGuard.KeysCollideExactly | cloud2cloud-connector/service/deviceSubscriptionHandlers.go:82-84 | when two pairs of user and device have the same key |
| PullGuard.KeysAreDistinct | cloud2cloud-connector/service/deviceSubscriptionHandlers.go:82-84 | in particular never different pairs whose device IDs hold no dot |
| Hrefs.JoinInvertsSplit | cloud2cloud-connector/service/pull.go:290-294 | joining the segments gives the href back, and no segment holds a slash |
| Hrefs.SplitInvertsJoin | cloud2cloud-connector/service/pull.go:290-294 | splitting a join gives the segments back |
| Hrefs.RemoveCrashesWithoutSlash | cloud2cloud-connector/service/pull.go:290-294 | the slice is out of range exactly for hrefs without a slash |
| Hrefs.RemoveInvertsGetHref | cloud2cloud-gateway/service/retrieveDevice.go:26-28 | taking the device off undoes putting it on exactly for device IDs without slashes and hrefs that start with one |
| Hrefs.TrimInvertsGetHref | cloud2cloud-connector/service/deviceSubscription.go:94-99 | so does the other way, for any device ID and exactly for hrefs that start with a slash |
| Hrefs.RemoveAndTrimAgree | cloud2cloud-connector/service/deviceSubscription.go:94-99 | both give the same on prefixed hrefs |
| Hrefs.FixHrefIsNormalForm | coap-gateway/service/resourceDirectory.go:50-59 | the result is a slash and the non-empty segments joined by slashes |
| Hrefs.FixHrefIdempotent | coap-gateway/service/resourceDirectory.go:50-59 | normalising twice is normalising once |
| Hrefs.SameNormalForm | coap-gateway/service/resourceDirectory.go:50-59 | two hrefs have the same normal form exactly when they have the same non-empty segments |
| Hrefs.FixHrefCompositional | coap-gateway/service/resourceDiscovery.go:46-48 | normalising the parts of a path first makes no difference |
| Hrefs.FixHrefShape | coap-gateway/service/resourceDirectory.go:50-59 | it starts with a slash, has no double slash and ends in one only as the root |
| BatchReorder.FilterOutEmptyResource | coap-gateway/coapconv/coapconv.go:338-351 | left out are exactly the empty representations under the listed prefixes |
| BatchReorder.FilteredMeans | coap-gateway/coapconv/coapconv.go:338-351 | left out are exactly the empty objects whose href starts with one of the two prefixes, written out |
| BatchReorder.NotifyMeans | coap-gateway/coapconv/coapconv.go:402-426 | an empty object becomes not found without content and content format, anything else is passed on as it came; resource types come from the content only when none are given |
| BatchReorder.KeptInOrder | coap-gateway/coapconv/coapconv.go:397-432 | every resource not left out has its entry, at its place among those, and there are no others |
| BatchReorder.NotificationsFromBatch | coap-gateway/coapconv/coapconv.go:377-439 | the kept entries without the message's ETag in order, then the last one that has it; an error for a wrong format or a body that does not decode (`KeptInOrder`, `NoETagNoReorder` and `ReorderByETag` say what that means) |
| BatchReorder.OthersKeepOrder | coap-gateway/coapconv/coapconv.go:397-432 | an entry without that ETag is found at its place among those without |
| BatchReorder.LastMatchIsLast | coap-gateway/coapconv/coapconv.go:427-437 | the entry moved to the end is the last one that has it |
| BatchReorder.ReorderIsPermutation | coap-gateway/coapconv/coapconv.go:394-438 | nothing is lost exactly when at most one entry has it; otherwise all but the last are |
| BatchReorder.NoETagNoReorder | coap-gateway/coapconv/coapconv.go:427 | a message without ETag keeps all its entries in order, also those without ETag |
| BatchReorder.ReorderByETag | coap-gateway/coapconv/coapconv.go:394-438 | with an ETag, in terms of equal ETags alone: entries with another are at their place among those, the last with it comes last, and nothing is lost exactly if no two have it |
| BatchReorder.GetETagsFromMessage | coap-gateway/coapconv/coapconv.go:217-235 | the doubling loop ends with all ETags, however many there are |
| Observe.ResourceSubscription.IsDuplicateEvent | coap-gateway/service/clientObserveHandler.go:108-117 | a version not above the last accepted one is a duplicate; the version kept never falls |
| Observe.ResourceSubscription.EventHandler | coap-gateway/service/clientObserveHandler.go:119-164 | the new state and the effect of each kind of event |
| Observe.StreamIsFiltered | coap-gateway/service/clientObserveHandler.go:128-162 | of any stream exactly the strict maxima of the version so far with status OK are sent, numbered 3, 4, 5, ... modulo 2^32 |
| Observe.CancelsExactly | coap-gateway/service/clientObserveHandler.go:119-164 | a stream cancels exactly at the unregistration of its device, the unpublishing of its resource, or newest content whose status is not OK; only newest content with status OK is sent |
| Observe.ObserveOrderIsVersionOrder | coap-gateway/service/clientObserveHandler.go:137-150 | of two contents sent the later has the greater version, and the greater number exactly unless the counter wrapped between them |
| Observe.LaterContentIsNewer | coap-gateway/service/clientObserveHandler.go:137-150 | in the sense of section 3.4 of RFC 7641 the later one is newer if it was sent fewer than 2^23 contents later, and by 24-bit numbers exactly then |

## Left out

- Races inside a single cache operation: each operation of `Cache` is one step. The lock of each node and the gap between the tree insert and the index update (cache.go:505-507) are not modelled.
- CacheObjects.Cache.LoadCloud: demands that the cloud exists, because the original crashes on a missing one.
- SubscriptionManager.ResponseAndFirstEventCommute: is about first events that are not cancellations; `CancelOvertakesResponse` is about those.
- Resubscribe.RoundLeavesTheRest: cancellations and removals of nodes during the round are not among its steps.
- SubscriptionManager.Manager.HandleEvent: what the body decodes to and what the authorization server and the services behind the handlers answer are given.
- SingleFlight.TokenCache.GetFutureToken: futures are numbers handed in by the caller, in place of newly allocated objects; the state machine numbers them in order.
- EventHeader.MakeEmitEventRequest: headers reach the receiver unchanged.
- EventHeader.EventRoundTrip: says nothing about forged signatures; the HMAC may be any function.
- BatchReorder.NotificationsFromBatch: what the CBOR of the batch and of its entries decodes to is given.
- `emitFunc` around the request, its sequence number counter in the database and the removal on status 410.
- Expiry times of parked requests, timeouts and delays: an expiry, a timeout or the end of a context is a step that may happen at any point.
- `DumpLinkedAccounts`, `DumpDevices` and the debug dumps of the cache.
- Reading the sign-off query and the authorization context: whether they are complete and valid is given to the `Enter` step of `SignOffHandler`, as are the answers of the remote calls to its `Proceed` step.
- `pullDevices` and its reconciliation with the identity store, which passes user and device in the wrong order (pull.go:248).
- The gateway's own subscription manager and event-handler matrix, status code tables, codecs, `CanonicalHref`, transport, authentication and configuration.
