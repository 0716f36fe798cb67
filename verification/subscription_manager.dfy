/**
 * The subscribe protocol of the connector. A request is parked under its correlation ID; the remote answers it
 * with an HTTP response and sends its first event, in either order, and both ends of the race store the
 * subscription. First the protocol on values, then the class that runs it.
 */
module SubscriptionManager {
  import opened Records
  import opened CacheTree
  import opened CacheLaws
  import opened CacheObjects
  import opened SupportedEvents
  import opened Store
  import opened Decimal
  import opened EventHeader

  // The cache and the database of the store, and the requests under way by correlation ID.
  datatype ManagerState = ManagerState(
    cache: CacheState,
    parked: map<string, SubscriptionData>,
    clouds: map<string, LinkedCloud>,
    accounts: map<string, LinkedAccount>)

  function StoreOf(m: ManagerState): StoreState { StoreState(m.cache, m.clouds, m.accounts) }

  function WithStore(m: ManagerState, st: StoreState): ManagerState {
    ManagerState(st.cache, m.parked, st.clouds, st.accounts)
  }

  // ---- Steps -----------------------------------------------------------------------------------------

  datatype Begun = AlreadySubscribed | CorrelationTaken | Parked(sub: Subscription)

  function TypeOf(p: Path): string {
    match p
    case DevicesPath(_, _) => TYPE_DEVICES
    case DevicePath(_, _, _) => TYPE_DEVICE
    case ResourcePath(_, _, _, _) => TYPE_RESOURCE
  }

  // The record built before the request is sent; it has no ID yet. The slot looked up is addressed by the
  // account's cloud ID, the record carries the cloud's own.
  function NewSubscription(p: Path, account: LinkedAccount, cloud: LinkedCloud, signingSecret: string, correlationID: string): Subscription {
    Subscription("", TypeOf(p), account.id, cloud.id,
                 if p.DevicesPath? then "" else p.device, if p.ResourcePath? then p.href else "",
                 signingSecret, correlationID)
  }

  ghost function Begin(m: ManagerState, p: Path, account: LinkedAccount, cloud: LinkedCloud, signingSecret: string, correlationID: string)
    : (ManagerState, Begun)
  {
    if SlotAt(m.cache.clouds, p).Some? then (m, AlreadySubscribed)
    else if correlationID in m.parked then (m, CorrelationTaken)
    else
      var sub := NewSubscription(p, account, cloud, signingSecret, correlationID);
      (m.(parked := m.parked[correlationID := SubscriptionData(account, cloud, sub)]), Parked(sub))
  }

  // Once subscribed a device goes into the resource projection; a subscription that cannot be stored is
  // cancelled at the remote by a request to the given path.
  datatype Responded = Subscribed(projection: Option<string>) | RequestFailed | StoreFailed(cancelAt: string) | ProjectionFailed(device: string)

  // A device that the projection does not take is an error, but stays subscribed.
  function Register(r: Responded, added: bool): Responded {
    if r.Subscribed? && r.projection.Some? && !added then ProjectionFailed(r.projection.value) else r
  }

  const DEVICES_PATH := "/devices/"

  // Where the remote keeps a subscription.
  function SubscriptionHref(sub: Subscription): string {
    if sub.typ == TYPE_DEVICES then DEVICES_PATH + "subscriptions/" + sub.id
    else if sub.typ == TYPE_DEVICE then DEVICES_PATH + sub.deviceID + "/subscriptions/" + sub.id
    else DEVICES_PATH + sub.deviceID + sub.href + "/subscriptions/" + sub.id
  }

  // The HTTP response: the ID the remote gave, or a failed request. A stored subscription stays parked.
  ghost function Respond(m: ManagerState, sub: Subscription, response: Option<string>): (ManagerState, Responded) {
    match response
    case None => (m.(parked := m.parked - {sub.correlationID}), RequestFailed)
    case Some(id) =>
      var (cache, r) := LoadOrCreateSubscription(m.cache, sub.(id := id));
      (m.(cache := cache),
       if r.AccountNotFound? then StoreFailed(SubscriptionHref(sub.(id := id)))
       else Subscribed(if sub.typ == TYPE_DEVICE then Some(sub.deviceID) else None))
  }

  datatype Received = Found(data: SubscriptionData) | NotStored | Duplicate | Unknown

  // What the arrival of an event does before its signature is looked at.
  ghost function Receive(m: ManagerState, id: string, correlationID: string): (ManagerState, Received) {
    if correlationID in m.parked then
      var data := m.parked[correlationID];
      var (cache, r) := LoadOrCreateSubscription(m.cache, data.subscription.(id := id));
      var m' := m.(cache := cache, parked := m.parked - {correlationID});
      if r.AccountNotFound? then (m', NotStored)
      else if r.loaded && r.data.subscription.id != id then (m', Duplicate)
      else (m', Found(data.(subscription := r.data.subscription)))
    else
      var (cache, data, ok) := LoadSubscription(m.cache, id);
      (m.(cache := cache), if ok then Found(data) else Unknown)
  }

  ghost function Cancel(m: ManagerState, id: string): (ManagerState, bool) {
    var (cache, _, ok) := PullOutSubscription(m.cache, id);
    (m.(cache := cache), ok)
  }

  // ---- Confluence ------------------------------------------------------------------------------------

  // Every parked record is filed under its own correlation ID.
  ghost predicate ParkedByCorrelation(m: ManagerState) {
    forall c :: c in m.parked ==> m.parked[c].subscription.correlationID == c
  }

  ghost predicate SlotFree(st: CacheState, sub: Subscription, id: string) {
    && id !in st.index && HasAccount(st.clouds, sub.linkedCloudID, sub.linkedAccountID)
    && SlotAt(st.clouds, PathOf(sub)).None?
  }

  // Storing the same subscription twice is storing it once.
  lemma StoringTwice(st: CacheState, sub: Subscription)
    requires Consistent(st)
    ensures var (st1, r1) := LoadOrCreateSubscription(st, sub);
            var (st2, r2) := LoadOrCreateSubscription(st1, sub);
            && Consistent(st1) && st2 == st1
            && (r2.AccountNotFound? <==> r1.AccountNotFound?)
            && (r1.Stored? ==> r2.loaded && r2.data.subscription == r1.data.subscription)
            && (r1.Stored? && !r1.loaded ==> r1.data.subscription == sub)
  {
    var (st1, r1) := LoadOrCreateSubscription(st, sub);
    CreateSubEffect(st, sub);
    CreateSubKeepsConsistent(st, sub);
    CreateSubEffect(st1, sub);
    DanglingBranchUnreachable(st, sub.id);
    DanglingBranchUnreachable(st1, sub.id);
  }

  // Main result: response then first event, and first event then response, end in the same state and give
  // both sides the same answer.
  lemma ResponseAndFirstEventCommute(m: ManagerState, correlationID: string, id: string)
    requires Consistent(m.cache) && ParkedByCorrelation(m) && correlationID in m.parked
    ensures var sub := m.parked[correlationID].subscription;
            var (afterResponse, response1) := Respond(m, sub, Some(id));
            var (end1, event1) := Receive(afterResponse, id, correlationID);
            var (afterEvent, event2) := Receive(m, id, correlationID);
            var (end2, response2) := Respond(afterEvent, sub, Some(id));
            end1 == end2 && event1 == event2 && response1 == response2
  {
    hide Consistent, SlotAt, PathOf, HasAccount, Put;
    StoringTwice(m.cache, m.parked[correlationID].subscription.(id := id));
  }

  // ... and that state is: the ID in exactly the requested slot if that was free, no change at all otherwise.
  lemma OutcomeOfTheRace(m: ManagerState, correlationID: string, id: string)
    requires Consistent(m.cache) && ParkedByCorrelation(m) && correlationID in m.parked
    ensures var sub := m.parked[correlationID].subscription;
            var end := Respond(Receive(m, id, correlationID).0, sub, Some(id)).0;
            var stored := sub.(id := id);
            var free := SlotFree(m.cache, sub, id);
            && end.parked == m.parked - {correlationID}
            && (free ==>
                  && end.cache.index == m.cache.index[id := stored]
                  && forall q :: SlotAt(end.cache.clouds, q) == if q == PathOf(sub) then Some(stored) else SlotAt(m.cache.clouds, q))
            && (!free ==> end.cache == m.cache)
            && Consistent(end.cache)
  {
    hide LoadOrCreateSubscription, Consistent, SlotAt, PathOf, HasAccount;
    var sub := m.parked[correlationID].subscription;
    PathIgnoresId(sub, id);
    StoringTwice(m.cache, sub.(id := id));
    CreateSubEffect(m.cache, sub.(id := id));
  }

  lemma PathIgnoresId(sub: Subscription, id: string)
    ensures PathOf(sub.(id := id)) == PathOf(sub)
  {
  }

  // In the free case no other slot carries the ID; with the slot held by another ID it is nowhere.
  lemma StoredInOneSlotOrNone(m: ManagerState, correlationID: string, id: string, q: Path)
    requires Consistent(m.cache) && ParkedByCorrelation(m) && correlationID in m.parked && id !in m.cache.index
    ensures var sub := m.parked[correlationID].subscription;
            var end := Respond(Receive(m, id, correlationID).0, sub, Some(id)).0;
            (SlotAt(end.cache.clouds, q).Some? && SlotAt(end.cache.clouds, q).value.id == id)
              <==> SlotFree(m.cache, sub, id) && q == PathOf(sub)
  {
    OutcomeOfTheRace(m, correlationID, id);
    if SlotAt(m.cache.clouds, q).Some? {
      assert Filed(m.cache, q);
    }
  }

  // ---- A cancellation in the race --------------------------------------------------------------------

  // The requested slot is free, or will be once the subscription with this ID is gone.
  ghost predicate Claimable(st: CacheState, sub: Subscription, id: string) {
    && HasAccount(st.clouds, sub.linkedCloudID, sub.linkedAccountID)
    && (SlotAt(st.clouds, PathOf(sub)).Some? ==> SlotAt(st.clouds, PathOf(sub)).value.id == id)
  }

  // Response, first event, cancellation; and the cancellation overtaking the response.
  ghost function CancelledLast(m: ManagerState, correlationID: string, id: string): ManagerState
    requires correlationID in m.parked
  {
    Cancel(Receive(Respond(m, m.parked[correlationID].subscription, Some(id)).0, id, correlationID).0, id).0
  }

  ghost function CancelledFirst(m: ManagerState, correlationID: string, id: string): ManagerState
    requires correlationID in m.parked
  {
    Respond(Cancel(Receive(m, id, correlationID).0, id).0, m.parked[correlationID].subscription, Some(id)).0
  }

  // What is in the slot of a subscription when it has been stored and taken out again.
  lemma SlotAfterCancel(st: CacheState, sub: Subscription)
    requires Consistent(st)
    ensures var st1 := LoadOrCreateSubscription(st, sub).0;
            var st2 := PullOutSubscription(st1, sub.id).0;
            && Consistent(st2) && sub.id !in st2.index
            && (HasAccount(st2.clouds, sub.linkedCloudID, sub.linkedAccountID) <==> HasAccount(st.clouds, sub.linkedCloudID, sub.linkedAccountID))
            && (Claimable(st, sub, sub.id) <==> SlotFree(st2, sub, sub.id))
  {
    hide LoadOrCreateSubscription, PullOutSubscription, PathOf, Consistent, SlotAt, HasAccount;
    var st1 := LoadOrCreateSubscription(st, sub).0;
    CreateSubKeepsConsistent(st, sub);
    PullOutSubKeepsConsistent(st1, sub.id);
    CreateSubEffect(st, sub);
    PullOutSubEffect(st1, sub.id);
    AccountsAfterCancel(st, sub);
    SlotHolder(st, PathOf(sub));
    SlotHolder(st1, PathOf(sub));
    if sub.id in st1.index {
      IndexedIsFiled(st1, sub.id);
    }
  }

  lemma CreateKeepsAccounts(st: CacheState, sub: Subscription, c: string, a: string)
    requires Consistent(st)
    ensures HasAccount(LoadOrCreateSubscription(st, sub).0.clouds, c, a) <==> HasAccount(st.clouds, c, a)
  {
    hide SlotAt, AccountPut;
    DanglingBranchUnreachable(st, sub.id);
  }

  lemma PullOutKeepsAccounts(st: CacheState, id: string, c: string, a: string)
    ensures HasAccount(PullOutSubscription(st, id).0.clouds, c, a) <==> HasAccount(st.clouds, c, a)
  {
    hide SlotAt, AccountPut;
  }

  lemma AccountsAfterCancel(st: CacheState, sub: Subscription)
    requires Consistent(st)
    ensures var st2 := PullOutSubscription(LoadOrCreateSubscription(st, sub).0, sub.id).0;
            HasAccount(st2.clouds, sub.linkedCloudID, sub.linkedAccountID) <==> HasAccount(st.clouds, sub.linkedCloudID, sub.linkedAccountID)
  {
    hide HasAccount, LoadOrCreateSubscription, PullOutSubscription, Consistent;
    CreateKeepsAccounts(st, sub, sub.linkedCloudID, sub.linkedAccountID);
    PullOutKeepsAccounts(LoadOrCreateSubscription(st, sub).0, sub.id, sub.linkedCloudID, sub.linkedAccountID);
  }

  // The subscription in a slot is the one indexed under its ID.
  lemma SlotHolder(st: CacheState, p: Path)
    requires Consistent(st)
    ensures SlotAt(st.clouds, p).Some? ==>
              var s := SlotAt(st.clouds, p).value; s.id in st.index && st.index[s.id] == s && PathOf(s) == p
  {
    if SlotAt(st.clouds, p).Some? {
      assert Filed(st, p);
    }
  }

  // Main result: the order matters once the first event is followed by a cancellation. Cancelled last, the
  // subscription is gone. When the cancellation overtakes the response, the response stores it again, exactly
  // if the requested slot was free or held by that very ID; the remote does not know it any more.
  lemma CancelOvertakesResponse(m: ManagerState, correlationID: string, id: string)
    requires Consistent(m.cache) && ParkedByCorrelation(m) && correlationID in m.parked
    ensures var stored := m.parked[correlationID].subscription.(id := id);
            var last, first := CancelledLast(m, correlationID, id), CancelledFirst(m, correlationID, id);
            && id !in last.cache.index && last.parked == first.parked
            && (id in first.cache.index <==> Claimable(m.cache, stored, id))
            && (first == last <==> !Claimable(m.cache, stored, id))
            && (Claimable(m.cache, stored, id) ==>
                  && first.cache.index == last.cache.index[id := stored]
                  && forall q :: SlotAt(first.cache.clouds, q) == if q == PathOf(stored) then Some(stored) else SlotAt(last.cache.clouds, q))
  {
    hide LoadOrCreateSubscription, PullOutSubscription, PathOf, Consistent, SlotAt, HasAccount, Claimable;
    var stored := m.parked[correlationID].subscription.(id := id);
    StoringTwice(m.cache, stored);
    SlotAfterCancel(m.cache, stored);
    var last := CancelledLast(m, correlationID, id);
    CreateSubEffect(last.cache, stored);
  }

  // For an ID that is not indexed yet that is: exactly if the requested slot was free.
  lemma NewIdCancelOvertakesResponse(m: ManagerState, correlationID: string, id: string)
    requires Consistent(m.cache) && ParkedByCorrelation(m) && correlationID in m.parked && id !in m.cache.index
    ensures id !in CancelledLast(m, correlationID, id).cache.index
    ensures id in CancelledFirst(m, correlationID, id).cache.index <==> SlotFree(m.cache, m.parked[correlationID].subscription, id)
  {
    var sub := m.parked[correlationID].subscription;
    CancelOvertakesResponse(m, correlationID, id);
    PathIgnoresId(sub, id);
    SlotHolder(m.cache, PathOf(sub));
  }

  // Events that find nothing parked leave everything as it is.
  lemma LaterEventsChangeNothing(m: ManagerState, id: string, correlationID: string)
    requires Consistent(m.cache) && correlationID !in m.parked
    ensures var (m', r) := Receive(m, id, correlationID);
            m' == m && (r.Found? <==> id in m.cache.index) && (r.Found? ==> r.data.subscription == m.cache.index[id])
  {
    DanglingBranchUnreachable(m.cache, id);
  }

  // ---- Every run of the protocol ---------------------------------------------------------------------

  datatype Step =
    | BeginStep(path: Path, account: LinkedAccount, cloud: LinkedCloud, signingSecret: string, correlationID: string)
    | RespondStep(sub: Subscription, response: Option<string>)
    | ReceiveStep(id: string, correlationID: string)
    | CancelStep(id: string)
    | DropParked(correlationID: string)
    | EventStep(mac: Mac, header: EventHeader, body: string, refresh: Refresh, work: Work)
    | StoreStep(op: StoreOp)

  ghost function Apply(m: ManagerState, s: Step): ManagerState {
    match s
    case BeginStep(p, a, c, secret, corr) => Begin(m, p, a, c, secret, corr).0
    case RespondStep(sub, response) => Respond(m, sub, response).0
    case ReceiveStep(id, corr) => Receive(m, id, corr).0
    case CancelStep(id) => Cancel(m, id).0
    case DropParked(corr) => m.(parked := m.parked - {corr})
    case EventStep(mac, header, body, refresh, work) => Handle(m, mac, header, body, refresh, work).0
    case StoreStep(op) => WithStore(m, Store.Apply(StoreOf(m), op))
  }

  ghost function RunSteps(m: ManagerState, steps: seq<Step>): ManagerState
    decreases |steps|
  {
    if steps == [] then m else RunSteps(Apply(m, steps[0]), steps[1..])
  }

  lemma ReceiveKeepsOrder(m: ManagerState, id: string, correlationID: string)
    requires Consistent(m.cache) && ParkedByCorrelation(m)
    ensures var m' := Receive(m, id, correlationID).0;
            Consistent(m'.cache) && ParkedByCorrelation(m') && m'.clouds == m.clouds && m'.accounts == m.accounts
  {
    hide Consistent, LoadOrCreateSubscription, LoadSubscription;
    if correlationID in m.parked {
      CreateSubKeepsConsistent(m.cache, m.parked[correlationID].subscription.(id := id));
    } else {
      DanglingBranchUnreachable(m.cache, id);
    }
  }

  lemma RespondKeepsOrder(m: ManagerState, sub: Subscription, response: Option<string>)
    requires Consistent(m.cache) && ParkedByCorrelation(m)
    ensures var m' := Respond(m, sub, response).0;
            Consistent(m'.cache) && ParkedByCorrelation(m') && m'.clouds == m.clouds && m'.accounts == m.accounts
  {
    hide Consistent, LoadOrCreateSubscription;
    if response.Some? {
      CreateSubKeepsConsistent(m.cache, sub.(id := response.value));
    }
  }

  lemma RefreshKeepsOrder(m: ManagerState, account: LinkedAccount, refresh: Refresh)
    requires Keyed(StoreOf(m)) && ParkedByCorrelation(m)
    ensures var m' := ApplyRefresh(m, account, refresh).0;
            Keyed(StoreOf(m')) && ParkedByCorrelation(m') && m'.parked == m.parked
  {
    hide Keyed, ReplaceAccount;
    if refresh.TokensRenewed? {
      ApplyKeepsKeyed(StoreOf(m), OpUpdateAccount(Renewed(account, refresh)));
    }
  }

  lemma CancelKeepsOrder(m: ManagerState, id: string)
    requires Consistent(m.cache) && ParkedByCorrelation(m)
    ensures var m' := Cancel(m, id).0;
            Consistent(m'.cache) && ParkedByCorrelation(m') && m'.clouds == m.clouds && m'.accounts == m.accounts
  {
    hide Consistent, PullOutSubscription;
    PullOutSubKeepsConsistent(m.cache, id);
  }

  lemma {:induction false} RemovalKeepsOrder(m: ManagerState, correlationID: string, scopes: seq<Scope>)
    requires Consistent(m.cache) && ParkedByCorrelation(m)
    ensures var m' := RemoveAll(m, correlationID, scopes);
            Consistent(m'.cache) && ParkedByCorrelation(m') && m'.clouds == m.clouds && m'.accounts == m.accounts
  {
    hide Consistent, PullOut;
    if scopes != [] {
      var before := RemoveAll(m, correlationID, scopes[..|scopes| - 1]);
      RemovalKeepsOrder(m, correlationID, scopes[..|scopes| - 1]);
      ApplyKeepsConsistent(before.cache, PullOutSubtree(scopes[|scopes| - 1]));
    }
  }

  // The database is not touched.
  lemma SameRecordsKeyed(m: ManagerState, m': ManagerState)
    requires Keyed(StoreOf(m)) && Consistent(m'.cache) && m'.clouds == m.clouds && m'.accounts == m.accounts
    ensures Keyed(StoreOf(m'))
  {
    hide Consistent;
  }

  // Steps that leave the database alone, on the manager's whole state.

  lemma ReceiveKeepsAll(m: ManagerState, id: string, correlationID: string)
    requires Keyed(StoreOf(m)) && ParkedByCorrelation(m)
    ensures var m' := Receive(m, id, correlationID).0; Keyed(StoreOf(m')) && ParkedByCorrelation(m')
  {
    KeyedIsConsistent(m);
    hide Consistent, Keyed, Receive, ParkedByCorrelation;
    ReceiveKeepsOrder(m, id, correlationID);
    SameRecordsKeyed(m, Receive(m, id, correlationID).0);
  }

  lemma CancelKeepsAll(m: ManagerState, id: string)
    requires Keyed(StoreOf(m)) && ParkedByCorrelation(m)
    ensures var m' := Cancel(m, id).0; Keyed(StoreOf(m')) && ParkedByCorrelation(m')
  {
    KeyedIsConsistent(m);
    hide Consistent, Keyed, Cancel, ParkedByCorrelation;
    CancelKeepsOrder(m, id);
    SameRecordsKeyed(m, Cancel(m, id).0);
  }

  lemma RemovalKeepsAll(m: ManagerState, correlationID: string, scopes: seq<Scope>)
    requires Keyed(StoreOf(m)) && ParkedByCorrelation(m)
    ensures var m' := RemoveAll(m, correlationID, scopes); Keyed(StoreOf(m')) && ParkedByCorrelation(m')
  {
    KeyedIsConsistent(m);
    hide Consistent, Keyed, RemoveAll, ParkedByCorrelation;
    RemovalKeepsOrder(m, correlationID, scopes);
    SameRecordsKeyed(m, RemoveAll(m, correlationID, scopes));
  }

  lemma EventKeepsOrder(m: ManagerState, mac: Mac, header: EventHeader, body: string, refresh: Refresh, work: Work)
    requires Keyed(StoreOf(m)) && ParkedByCorrelation(m)
    ensures var m' := Handle(m, mac, header, body, refresh, work).0;
            Keyed(StoreOf(m')) && ParkedByCorrelation(m')
  {
    hide Keyed, Receive, ApplyRefresh, Cancel, RemoveAll, Removed, Signature, SignatureOf, ParkedByCorrelation, StoreOf, Triggered, Supported, Succeeds;
    var (m1, r) := Receive(m, header.id, header.correlationID);
    ReceiveKeepsAll(m, header.id, header.correlationID);
    if r.Found? {
      RefreshKeepsOrder(m1, r.data.linkedAccount, refresh);
      var m2 := ApplyRefresh(m1, r.data.linkedAccount, refresh).0;
      CancelKeepsAll(m2, header.id);
      RemovalKeepsAll(m2, header.correlationID, Removed(r.data.(linkedAccount := Renewed(r.data.linkedAccount, refresh)), header.eventType, work));
    }
  }

  lemma KeyedIsConsistent(m: ManagerState)
    requires Keyed(StoreOf(m))
    ensures Consistent(m.cache)
  {
  }

  lemma RespondKeepsAll(m: ManagerState, sub: Subscription, response: Option<string>)
    requires Keyed(StoreOf(m)) && ParkedByCorrelation(m)
    ensures var m' := Respond(m, sub, response).0; Keyed(StoreOf(m')) && ParkedByCorrelation(m')
  {
    KeyedIsConsistent(m);
    hide Consistent, Keyed, Respond, ParkedByCorrelation;
    RespondKeepsOrder(m, sub, response);
    SameRecordsKeyed(m, Respond(m, sub, response).0);
  }

  lemma ParkingKeepsAll(m: ManagerState, m': ManagerState)
    requires Keyed(StoreOf(m)) && m' == m.(parked := m'.parked)
    ensures Keyed(StoreOf(m'))
  {
  }

  lemma StepKeepsOrder(m: ManagerState, s: Step)
    requires Keyed(StoreOf(m)) && ParkedByCorrelation(m)
    ensures Keyed(StoreOf(Apply(m, s))) && ParkedByCorrelation(Apply(m, s))
  {
    hide Keyed, Receive, Respond, Cancel, Handle, Store.Apply, SlotAt, PathOf;
    match s
    case BeginStep(_, _, _, _, _) => ParkingKeepsAll(m, Apply(m, s));
    case RespondStep(sub, response) => RespondKeepsAll(m, sub, response);
    case ReceiveStep(id, corr) => ReceiveKeepsAll(m, id, corr);
    case CancelStep(id) => CancelKeepsAll(m, id);
    case DropParked(_) => ParkingKeepsAll(m, Apply(m, s));
    case EventStep(mac, header, body, refresh, work) => EventKeepsOrder(m, mac, header, body, refresh, work);
    case StoreStep(op) => ApplyKeepsKeyed(StoreOf(m), op);
  }

  // Requests, responses, whole events, expiries and store operations in any order keep the index and the tree in
  // agreement, and the records of cache and database under their own IDs.
  lemma {:induction false} EveryRunKeepsOrder(m: ManagerState, steps: seq<Step>)
    requires Keyed(StoreOf(m)) && ParkedByCorrelation(m)
    ensures Keyed(StoreOf(RunSteps(m, steps))) && ParkedByCorrelation(RunSteps(m, steps))
    ensures Consistent(RunSteps(m, steps).cache)
    decreases |steps|
  {
    hide Keyed, ParkedByCorrelation, Consistent;
    if steps != [] {
      StepKeepsOrder(m, steps[0]);
      EveryRunKeepsOrder(Apply(m, steps[0]), steps[1..]);
    } else {
      KeyedIsConsistent(m);
    }
  }

  // ---- Handling an event -----------------------------------------------------------------------------

  datatype Status = StatusOK | BadRequest | Gone | InternalServerError

  ghost function SignatureOf(mac: Mac, secret: string, header: EventHeader, body: string): string {
    Signature(mac, secret, header.contentType, header.eventType, header.id, header.sequenceNumber, header.eventTimestamp, body)
  }

  // What refreshing the account's tokens comes to; they are stored only if the target cloud's have changed.
  datatype Refresh = RefreshFailed | TokensKept | OriginRenewed(origin: Token) | TokensRenewed(origin: Token, target: Token)

  // The renewed account is stored, first in the database and then in the cache; that fails when it is gone.
  ghost function ApplyRefresh(m: ManagerState, account: LinkedAccount, refresh: Refresh): (ManagerState, bool) {
    match refresh
    case RefreshFailed => (m, false)
    case TokensKept => (m, true)
    case OriginRenewed(_) => (m, true)
    case TokensRenewed(_, _) =>
      var (st, ok) := ReplaceAccount(StoreOf(m), Renewed(account, refresh));
      (WithStore(m, st), ok)
  }

  function Renewed(account: LinkedAccount, refresh: Refresh): LinkedAccount {
    match refresh
    case OriginRenewed(origin) => account.(origin := origin)
    case TokensRenewed(origin, target) => account.(origin := origin, target := target)
    case _ => account
  }

  // What the body of an event decodes to: the device IDs or hrefs in it, and for each whether the remote calls
  // made for it succeed.
  datatype Item = Item(name: string, ok: bool)
  datatype Work = Work(decoded: bool, items: seq<Item>)

  const NO_WORK := Work(true, [])

  predicate Succeeds(work: Work) { work.decoded && forall i :: 0 <= i < |work.items| ==> work.items[i].ok }

  predicate Supported(typ: string, eventType: string) {
    || (typ == TYPE_DEVICES && eventType in {DEVICES_REGISTERED, DEVICES_UNREGISTERED, DEVICES_ONLINE, DEVICES_OFFLINE})
    || (typ == TYPE_DEVICE && eventType in {RESOURCES_PUBLISHED, RESOURCES_UNPUBLISHED})
    || (typ == TYPE_RESOURCE && eventType == RESOURCE_CHANGED)
  }

  // The subtrees an event removes, in order.
  function Removed(data: SubscriptionData, eventType: string, work: Work): seq<Scope> {
    var a, sub := data.linkedAccount, data.subscription;
    if !work.decoded then []
    else if sub.typ == TYPE_DEVICES && eventType == DEVICES_UNREGISTERED then
      seq(|work.items|, i requires 0 <= i < |work.items| => DeviceScope(a.linkedCloudID, a.id, work.items[i].name))
    else if sub.typ == TYPE_DEVICE && eventType == RESOURCES_UNPUBLISHED then
      seq(|work.items|, i requires 0 <= i < |work.items| => ResourceScope(a.linkedCloudID, a.id, sub.deviceID, work.items[i].name))
    else []
  }

  // The task an accepted item of an event triggers, if any: a new device of a cloud with static device events
  // is pulled, one of another cloud subscribed to unless it has to be polled; likewise a new resource.
  ghost function TaskFor(data: SubscriptionData, eventType: string, name: string): seq<Task> {
    var c, a, sub := data.linkedCloud, data.linkedAccount, data.subscription;
    if sub.typ == TYPE_DEVICES && eventType == DEVICES_REGISTERED then
      if c.supportedEvents.staticDeviceEvents then [Task(PullDevice, c, a, name, "")]
      else if PullsDevice(c.supportedEvents) then []
      else [Task(SubscribeToDevice, c, a, name, "")]
    else if sub.typ == TYPE_DEVICE && eventType == RESOURCES_PUBLISHED then
      if PullsResources(c.supportedEvents) then [] else [Task(SubscribeToResource, c, a, sub.deviceID, name)]
    else []
  }

  ghost function TasksFor(data: SubscriptionData, eventType: string, items: seq<Item>): seq<Task> {
    if items == [] then []
    else
      var last := items[|items| - 1];
      TasksFor(data, eventType, items[..|items| - 1]) + if last.ok then TaskFor(data, eventType, last.name) else []
  }

  ghost function Triggered(data: SubscriptionData, eventType: string, work: Work): seq<Task> {
    if work.decoded then TasksFor(data, eventType, work.items) else []
  }

  ghost function RemoveAll(m: ManagerState, correlationID: string, scopes: seq<Scope>): ManagerState {
    if scopes == [] then m
    else
      var m' := RemoveAll(m, correlationID, scopes[..|scopes| - 1]);
      m'.(cache := PullOut(m'.cache, scopes[|scopes| - 1]), parked := m'.parked - {correlationID})
  }

  datatype Handled = Handled(status: Status, tasks: seq<Task>)

  ghost function Handle(m: ManagerState, mac: Mac, header: EventHeader, body: string, refresh: Refresh, work: Work): (ManagerState, Handled) {
    var (m', r) := Receive(m, header.id, header.correlationID);
    if !r.Found? then (m', Handled(Gone, []))
    else if header.eventSignature != SignatureOf(mac, r.data.subscription.signingSecret, header, body) then (m', Handled(BadRequest, []))
    else
      var (m'', refreshed) := ApplyRefresh(m', r.data.linkedAccount, refresh);
      if !refreshed then (m'', Handled(InternalServerError, []))
      else if header.eventType == SUBSCRIPTION_CANCELED then
        var (end, ok) := Cancel(m'', header.id);
        (end, Handled(if ok then StatusOK else Gone, []))
      else
        var data := r.data.(linkedAccount := Renewed(r.data.linkedAccount, refresh));
        (RemoveAll(m'', header.correlationID, Removed(data, header.eventType, work)),
         Handled(if Supported(data.subscription.typ, header.eventType) && Succeeds(work) then StatusOK else BadRequest,
                 Triggered(data, header.eventType, work)))
  }

  ghost predicate CoveredByAny(scopes: seq<Scope>, q: Path) {
    exists i :: 0 <= i < |scopes| && Covers(scopes[i], q)
  }

  lemma CoveredByLast(scopes: seq<Scope>, q: Path)
    requires scopes != []
    ensures CoveredByAny(scopes, q) <==> CoveredByAny(scopes[..|scopes| - 1], q) || Covers(scopes[|scopes| - 1], q)
  {
    if CoveredByAny(scopes, q) && !Covers(scopes[|scopes| - 1], q) {
      var i :| 0 <= i < |scopes| && Covers(scopes[i], q);
      assert Covers(scopes[..|scopes| - 1][i], q);
    }
  }

  // A list of removals empties exactly the slots below the named nodes, whatever order and repetitions.
  lemma {:induction false} RemovalIsExact(m: ManagerState, correlationID: string, scopes: seq<Scope>)
    requires Consistent(m.cache)
    ensures var end := RemoveAll(m, correlationID, scopes);
            && Consistent(end.cache)
            && (forall q :: SlotAt(end.cache.clouds, q) == if CoveredByAny(scopes, q) then None else SlotAt(m.cache.clouds, q))
            && (forall id :: id in end.cache.index <==> id in m.cache.index && !CoveredByAny(scopes, PathOf(m.cache.index[id])))
            && (forall id :: id in end.cache.index ==> end.cache.index[id] == m.cache.index[id])
  {
    hide SlotAt, Covers, PathOf, Consistent, PullOut, CoveredByAny;
    if scopes == [] {
      assert forall q :: !CoveredByAny(scopes, q) by { CoveredByNone(scopes); }
    } else {
      var n := |scopes| - 1;
      var before := RemoveAll(m, correlationID, scopes[..n]);
      RemovalIsExact(m, correlationID, scopes[..n]);
      PullOutIsExact(before.cache, scopes[n]);
      ApplyKeepsConsistent(before.cache, PullOutSubtree(scopes[n]));
      forall q ensures CoveredByAny(scopes, q) <==> CoveredByAny(scopes[..n], q) || Covers(scopes[n], q) {
        CoveredByLast(scopes, q);
      }
    }
  }

  lemma CoveredByNone(scopes: seq<Scope>)
    requires scopes == []
    ensures forall q :: !CoveredByAny(scopes, q)
  {
  }

  predicate Names(work: Work, name: string) { exists i :: 0 <= i < |work.items| && work.items[i].name == name }

  // A signed event about unregistered devices takes exactly those devices and all their subscriptions out of
  // the account it belongs to.
  lemma UnregisteredDevicesAreGone(m: ManagerState, mac: Mac, header: EventHeader, body: string, work: Work)
    requires Consistent(m.cache) && header.correlationID !in m.parked && header.id in m.cache.index
    requires header.eventSignature == SignatureOf(mac, m.cache.index[header.id].signingSecret, header, body)
    requires m.cache.index[header.id].typ == TYPE_DEVICES && header.eventType == DEVICES_UNREGISTERED && work.decoded
    ensures var sub := m.cache.index[header.id];
            var (end, h) := Handle(m, mac, header, body, TokensKept, work);
            && (h.status == StatusOK <==> Succeeds(work)) && h.tasks == []
            && (forall q :: SlotAt(end.cache.clouds, q) ==
                  if q.cloud == sub.linkedCloudID && q.account == sub.linkedAccountID && !q.DevicesPath? && Names(work, q.device)
                  then None else SlotAt(m.cache.clouds, q))
            && header.id in end.cache.index && Consistent(end.cache)
  {
    hide SlotAt, Consistent, RemoveAll;
    var sub := m.cache.index[header.id];
    LaterEventsChangeNothing(m, header.id, header.correlationID);
    LoadedAccount(m.cache, header.id);
    var data := Receive(m, header.id, header.correlationID).1.data;
    var scopes := Removed(data, header.eventType, work);
    RemovalIsExact(m, header.correlationID, scopes);
    NothingTriggered(data, DEVICES_UNREGISTERED, work.items);
    forall q ensures CoveredByAny(scopes, q) <==>
                       q.cloud == sub.linkedCloudID && q.account == sub.linkedAccountID && !q.DevicesPath? && Names(work, q.device)
    {
      if !q.DevicesPath? && Names(work, q.device) && q.cloud == sub.linkedCloudID && q.account == sub.linkedAccountID {
        var i :| 0 <= i < |work.items| && work.items[i].name == q.device;
        assert Covers(scopes[i], q);
      }
    }
    assert PathOf(sub).DevicesPath?;
  }

  lemma {:induction false} NothingTriggered(data: SubscriptionData, eventType: string, items: seq<Item>)
    requires !(data.subscription.typ == TYPE_DEVICES && eventType == DEVICES_REGISTERED)
    requires !(data.subscription.typ == TYPE_DEVICE && eventType == RESOURCES_PUBLISHED)
    ensures TasksFor(data, eventType, items) == []
  {
    if items != [] {
      NothingTriggered(data, eventType, items[..|items| - 1]);
    }
  }

  // The account handed out with a subscription is the one it belongs to.
  lemma LoadedAccount(st: CacheState, id: string)
    requires Consistent(st) && id in st.index
    ensures var (_, data, ok) := LoadSubscription(st, id);
            ok && data.subscription == st.index[id]
            && data.linkedAccount.id == st.index[id].linkedAccountID && data.linkedAccount.linkedCloudID == st.index[id].linkedCloudID
  {
    DanglingBranchUnreachable(st, id);
  }

  lemma FirstEventStores(m: ManagerState, correlationID: string, id: string)
    requires Consistent(m.cache) && ParkedByCorrelation(m) && correlationID in m.parked
    requires SlotFree(m.cache, m.parked[correlationID].subscription, id)
    ensures var (m', r) := Receive(m, id, correlationID);
            var stored := m.parked[correlationID].subscription.(id := id);
            && r.Found? && r.data.subscription == stored
            && m'.parked == m.parked - {correlationID} && m'.cache.index == m.cache.index[id := stored]
            && SlotAt(m'.cache.clouds, PathOf(stored)) == Some(stored)
  {
    CreateSubEffect(m.cache, m.parked[correlationID].subscription.(id := id));
    DanglingBranchUnreachable(m.cache, id);
  }

  // Across the two services: the first event the gateway emits for a parked request is accepted, and it alone
  // stores the subscription; the response is not needed.
  lemma GatewayEventIsAccepted(m: ManagerState, mac: Mac, timestamp: Time, eventType: string, s: GatewaySubscription, seqNum: nat, rep: Option<Representation>)
    requires Consistent(m.cache) && ParkedByCorrelation(m) && s.correlationID in m.parked && s.id != ""
    requires var sub := m.parked[s.correlationID].subscription;
             sub.signingSecret == s.signingSecret && SlotFree(m.cache, sub, s.id) && Supported(sub.typ, eventType)
    requires KnownEvent(eventType) && eventType != SUBSCRIPTION_CANCELED && rep.Some?
    requires seqNum <= MAX_UINT64 && MIN_INT64 <= timestamp.unix <= MAX_INT64
    requires EmitRequest(mac, timestamp, eventType, s, seqNum, rep).Some?
    ensures var r := EmitRequest(mac, timestamp, eventType, s, seqNum, rep).value;
            && ParseEventHeader(r).Ok?
            && var (m', h) := Handle(m, mac, ParseEventHeader(r).header, r.body, TokensKept, NO_WORK);
               var stored := m.parked[s.correlationID].subscription.(id := s.id);
               && h.status == StatusOK
               && m'.parked == m.parked - {s.correlationID}
               && m'.cache.index == m.cache.index[s.id := stored]
               && SlotAt(m'.cache.clouds, PathOf(stored)) == Some(stored)
  {
    hide LoadOrCreateSubscription, Signature, EmitRequest, ParseEventHeader, SlotAt, PathOf, HasAccount, Consistent;
    EventRoundTrip(mac, timestamp, eventType, s, seqNum, rep);
    FirstEventStores(m, s.correlationID, s.id);
  }

  // A cancellation the gateway signs with the stored secret takes the subscription out again.
  lemma GatewayCancelIsAccepted(m: ManagerState, mac: Mac, timestamp: Time, s: GatewaySubscription, seqNum: nat)
    requires Consistent(m.cache) && s.correlationID !in m.parked && s.id != ""
    requires s.id in m.cache.index && m.cache.index[s.id].signingSecret == s.signingSecret
    requires seqNum <= MAX_UINT64 && MIN_INT64 <= timestamp.unix <= MAX_INT64
    ensures EmitRequest(mac, timestamp, SUBSCRIPTION_CANCELED, s, seqNum, None).Some?
    ensures var r := EmitRequest(mac, timestamp, SUBSCRIPTION_CANCELED, s, seqNum, None).value;
            && ParseEventHeader(r).Ok?
            && var (m', h) := Handle(m, mac, ParseEventHeader(r).header, r.body, TokensKept, NO_WORK);
               && h.status == StatusOK
               && m'.cache.index == m.cache.index - {s.id}
               && forall q :: SlotAt(m'.cache.clouds, q) ==
                              if q == PathOf(m.cache.index[s.id]) then None else SlotAt(m.cache.clouds, q)
  {
    EventRoundTrip(mac, timestamp, SUBSCRIPTION_CANCELED, s, seqNum, None);
    LaterEventsChangeNothing(m, s.id, s.correlationID);
    PullOutSubEffect(m.cache, s.id);
  }

  // ---- The class -------------------------------------------------------------------------------------

  class Manager {
    const store: ConnectorStore
    var cache: map<string, SubscriptionData>  // by correlation ID

    ghost predicate Valid()
      reads store.cache`clouds, store.cache`Repr, store.cache.Repr
    {
      store.Valid() && this !in store.cache.Repr
    }

    ghost function State(): ManagerState
      requires Valid()
      reads this, store.cache, store.cache.Repr, store.db
    {
      ManagerState(store.cache.State(), cache, store.db.clouds, store.db.accounts)
    }

    constructor (store: ConnectorStore)
      requires store.Valid()
      ensures Valid() && this.store == store && StoreOf(State()) == store.State() && State().parked == map[]
    {
      this.store := store;
      cache := map[];
    }

    // The three Subscribe functions up to the HTTP request ...

    method BeginSubscribeToDevices(account: LinkedAccount, cloud: LinkedCloud, signingSecret: string, correlationID: string) returns (r: Begun)
      requires Valid()
      modifies `cache
      ensures Valid()
      ensures (State(), r) == Begin(old(State()), DevicesPath(account.linkedCloudID, account.id), account, cloud, signingSecret, correlationID)
    {
      var _, loaded := store.cache.LoadDevicesSubscription(account.linkedCloudID, account.id);
      if loaded {
        return AlreadySubscribed;
      }
      r := Park(account, cloud, Subscription("", TYPE_DEVICES, account.id, cloud.id, "", "", signingSecret, correlationID));
    }

    method BeginSubscribeToDevice(deviceID: string, account: LinkedAccount, cloud: LinkedCloud, signingSecret: string, correlationID: string) returns (r: Begun)
      requires Valid()
      modifies `cache
      ensures Valid()
      ensures (State(), r) == Begin(old(State()), DevicePath(account.linkedCloudID, account.id, deviceID), account, cloud, signingSecret, correlationID)
    {
      var _, loaded := store.cache.LoadDeviceSubscription(account.linkedCloudID, account.id, deviceID);
      if loaded {
        return AlreadySubscribed;
      }
      r := Park(account, cloud, Subscription("", TYPE_DEVICE, account.id, cloud.id, deviceID, "", signingSecret, correlationID));
    }

    method BeginSubscribeToResource(deviceID: string, href: string, account: LinkedAccount, cloud: LinkedCloud, signingSecret: string, correlationID: string) returns (r: Begun)
      requires Valid()
      modifies `cache
      ensures Valid()
      ensures (State(), r) == Begin(old(State()), ResourcePath(account.linkedCloudID, account.id, deviceID, href), account, cloud, signingSecret, correlationID)
    {
      var _, loaded := store.cache.LoadResourceSubscription(account.linkedCloudID, account.id, deviceID, href);
      if loaded {
        return AlreadySubscribed;
      }
      r := Park(account, cloud, Subscription("", TYPE_RESOURCE, account.id, cloud.id, deviceID, href, signingSecret, correlationID));
    }

    method Park(account: LinkedAccount, cloud: LinkedCloud, sub: Subscription) returns (r: Begun)
      requires Valid()
      modifies `cache
      ensures cache == if sub.correlationID in old(cache) then old(cache)
                       else old(cache)[sub.correlationID := SubscriptionData(account, cloud, sub)]
      ensures r == if sub.correlationID in old(cache) then CorrelationTaken else Parked(sub)
    {
      if sub.correlationID in cache {
        return CorrelationTaken;
      }
      cache := cache[sub.correlationID := SubscriptionData(account, cloud, sub)];
      return Parked(sub);
    }

    // ... and from the response on.
    method FinishSubscribe(sub: Subscription, response: Option<string>, added: bool) returns (r: Responded)
      requires Valid()
      modifies `cache, store.cache, store.cache.Repr
      ensures Valid() && fresh(store.cache.Repr - old(store.cache.Repr))
      ensures State() == Respond(old(State()), sub, response).0
      ensures r == Register(Respond(old(State()), sub, response).1, added)
    {
      if response.None? {
        cache := cache - {sub.correlationID};
        return RequestFailed;
      }
      var granted := sub.(id := response.value);
      var stored := store.cache.LoadOrCreateSubscription(granted);
      if stored.AccountNotFound? {
        return StoreFailed(SubscriptionHref(granted));
      }
      if sub.typ == TYPE_DEVICE {
        if !added {
          return ProjectionFailed(sub.deviceID);
        }
        return Subscribed(Some(sub.deviceID));
      }
      return Subscribed(None);
    }

    method GetSubscriptionData(id: string, correlationID: string) returns (r: Received)
      requires Valid()
      modifies `cache, store.cache, store.cache.Repr
      ensures Valid() && fresh(store.cache.Repr - old(store.cache.Repr))
      ensures (State(), r) == Receive(old(State()), id, correlationID)
    {
      if correlationID in cache {
        var subData := cache[correlationID];
        var stored := store.cache.LoadOrCreateSubscription(subData.subscription.(id := id));
        cache := cache - {correlationID};
        if stored.AccountNotFound? {
          return NotStored;
        }
        if stored.loaded && stored.data.subscription.id != id {
          return Duplicate;
        }
        return Found(subData.(subscription := stored.data.subscription));
      }
      var data, ok := store.cache.LoadSubscription(id);
      if !ok {
        return Unknown;
      }
      return Found(data);
    }

    method HandleCancelEvent(id: string) returns (ok: bool)
      requires Valid()
      modifies store.cache, store.cache.Repr
      ensures Valid() && fresh(store.cache.Repr - old(store.cache.Repr))
      ensures (State(), ok) == Cancel(old(State()), id)
    {
      var data;
      data, ok := store.cache.PullOutSubscription(id);
    }

    // Refreshed tokens are stored with the account.
    method RefreshTokens(account: LinkedAccount, refresh: Refresh) returns (ok: bool)
      requires Valid()
      modifies store.cache, store.cache.Repr, store.db
      ensures Valid() && fresh(store.cache.Repr - old(store.cache.Repr))
      ensures (State(), ok) == ApplyRefresh(old(State()), account, refresh)
    {
      match refresh
      case RefreshFailed => return false;
      case TokensKept => return true;
      case OriginRenewed(_) => return true;
      case TokensRenewed(_, _) =>
        ok := store.UpdateLinkedAccount(Renewed(account, refresh));
    }

    // The handlers for new devices and resources collect tasks.

    method HandleDevicesRegistered(data: SubscriptionData, items: seq<Item>) returns (tasks: seq<Task>)
      requires data.subscription.typ == TYPE_DEVICES
      ensures tasks == TasksFor(data, DEVICES_REGISTERED, items)
    {
      tasks := [];
      for i := 0 to |items|
        invariant tasks == TasksFor(data, DEVICES_REGISTERED, items[..i])
      {
        assert items[..i + 1][..i] == items[..i];
        if !items[i].ok {
          continue;
        }
        if data.linkedCloud.supportedEvents.staticDeviceEvents {
          tasks := tasks + [Task(PullDevice, data.linkedCloud, data.linkedAccount, items[i].name, "")];
          continue;
        }
        var pull := NeedPullDevice(data.linkedCloud.supportedEvents);
        if pull {
          continue;
        }
        tasks := tasks + [Task(SubscribeToDevice, data.linkedCloud, data.linkedAccount, items[i].name, "")];
      }
      assert items[..|items|] == items;
    }

    method HandleResourcesPublished(data: SubscriptionData, items: seq<Item>) returns (tasks: seq<Task>)
      requires data.subscription.typ == TYPE_DEVICE
      ensures tasks == TasksFor(data, RESOURCES_PUBLISHED, items)
    {
      tasks := [];
      for i := 0 to |items|
        invariant tasks == TasksFor(data, RESOURCES_PUBLISHED, items[..i])
      {
        assert items[..i + 1][..i] == items[..i];
        if !items[i].ok {
          continue;
        }
        var pull := NeedPullResources(data.linkedCloud.supportedEvents);
        if pull {
          continue;
        }
        tasks := tasks + [Task(SubscribeToResource, data.linkedCloud, data.linkedAccount, data.subscription.deviceID, items[i].name)];
      }
      assert items[..|items|] == items;
    }

    // Those for devices and resources that are gone clean up the store.

    method HandleDevicesUnregistered(data: SubscriptionData, correlationID: string, items: seq<Item>)
      requires Valid() && data.subscription.typ == TYPE_DEVICES
      modifies `cache, store.cache, store.cache.Repr
      ensures Valid() && fresh(store.cache.Repr - old(store.cache.Repr))
      ensures State() == RemoveAll(old(State()), correlationID, Removed(data, DEVICES_UNREGISTERED, Work(true, items)))
    {
      hide Cache.Valid, Cache.View, PullOut;
      ghost var scopes := Removed(data, DEVICES_UNREGISTERED, Work(true, items));
      for i := 0 to |items|
        invariant Valid() && fresh(store.cache.Repr - old(store.cache.Repr))
        invariant State() == RemoveAll(old(State()), correlationID, scopes[..i])
      {
        var _ := store.cache.PullOutDevice(data.linkedAccount.linkedCloudID, data.linkedAccount.id, items[i].name);
        cache := cache - {correlationID};
        assert scopes[..i + 1][..i] == scopes[..i];
      }
      assert scopes[..|items|] == scopes;
    }

    method HandleResourcesUnpublished(data: SubscriptionData, correlationID: string, items: seq<Item>)
      requires Valid() && data.subscription.typ == TYPE_DEVICE
      modifies `cache, store.cache, store.cache.Repr
      ensures Valid() && fresh(store.cache.Repr - old(store.cache.Repr))
      ensures State() == RemoveAll(old(State()), correlationID, Removed(data, RESOURCES_UNPUBLISHED, Work(true, items)))
    {
      hide Cache.Valid, Cache.View, PullOut;
      ghost var scopes := Removed(data, RESOURCES_UNPUBLISHED, Work(true, items));
      for i := 0 to |items|
        invariant Valid() && fresh(store.cache.Repr - old(store.cache.Repr))
        invariant State() == RemoveAll(old(State()), correlationID, scopes[..i])
      {
        var _ := store.cache.PullOutResource(data.linkedAccount.linkedCloudID, data.linkedAccount.id, data.subscription.deviceID, items[i].name);
        cache := cache - {correlationID};
        assert scopes[..i + 1][..i] == scopes[..i];
      }
      assert scopes[..|items|] == scopes;
    }

    // What the handler of the subscription's type does with an event.
    method Dispatch(data: SubscriptionData, header: EventHeader, work: Work) returns (h: Handled)
      requires Valid()
      modifies `cache, store.cache, store.cache.Repr
      ensures Valid() && fresh(store.cache.Repr - old(store.cache.Repr))
      ensures State() == RemoveAll(old(State()), header.correlationID, Removed(data, header.eventType, work))
      ensures h == Handled(if Supported(data.subscription.typ, header.eventType) && Succeeds(work) then StatusOK else BadRequest,
                           Triggered(data, header.eventType, work))
    {
      hide Cache.Valid, Cache.View, PullOut, TasksFor;
      if !work.decoded {
        return Handled(BadRequest, []);
      }
      var typ := data.subscription.typ;
      var tasks := [];
      if !(typ == TYPE_DEVICES && header.eventType == DEVICES_REGISTERED) && !(typ == TYPE_DEVICE && header.eventType == RESOURCES_PUBLISHED) {
        NothingTriggered(data, header.eventType, work.items);
      }
      if typ == TYPE_DEVICES && header.eventType == DEVICES_REGISTERED {
        tasks := HandleDevicesRegistered(data, work.items);
      } else if typ == TYPE_DEVICES && header.eventType == DEVICES_UNREGISTERED {
        HandleDevicesUnregistered(data, header.correlationID, work.items);
      } else if typ == TYPE_DEVICE && header.eventType == RESOURCES_PUBLISHED {
        tasks := HandleResourcesPublished(data, work.items);
      } else if typ == TYPE_DEVICE && header.eventType == RESOURCES_UNPUBLISHED {
        HandleResourcesUnpublished(data, header.correlationID, work.items);
      }
      return Handled(if Supported(typ, header.eventType) && Succeeds(work) then StatusOK else BadRequest, tasks);
    }

    // The answers of the authorization server and of the services the handlers call are given.
    method HandleEvent(mac: Mac, header: EventHeader, body: string, refresh: Refresh, work: Work) returns (h: Handled)
      requires Valid()
      modifies `cache, store.cache, store.cache.Repr, store.db
      ensures Valid() && fresh(store.cache.Repr - old(store.cache.Repr))
      ensures (State(), h) == Handle(old(State()), mac, header, body, refresh, work)
    {
      hide Cache.Valid, Cache.View, PullOut, RemoveAll, Removed, ApplyRefresh, Cancel, Receive, Signature, Triggered;
      var r := GetSubscriptionData(header.id, header.correlationID);
      if !r.Found? {
        return Handled(Gone, []);
      }
      var signature := CalculateEventSignature(mac, r.data.subscription.signingSecret, header.contentType, header.eventType,
                                               header.id, header.sequenceNumber, header.eventTimestamp, body);
      if header.eventSignature != signature {
        return Handled(BadRequest, []);
      }
      var refreshed := RefreshTokens(r.data.linkedAccount, refresh);
      if !refreshed {
        return Handled(InternalServerError, []);
      }
      if header.eventType == SUBSCRIPTION_CANCELED {
        var ok := HandleCancelEvent(header.id);
        return Handled(if ok then StatusOK else Gone, []);
      }
      var subData := r.data.(linkedAccount := Renewed(r.data.linkedAccount, refresh));
      h := Dispatch(subData, header, work);
    }
  }
}
