/**
 * What an event does, case by case and without reference to how it is handled: the record it is about, the
 * status it is answered with, what it stores, what it removes and what tasks it triggers.
 */
module EventLaws {
  import opened Records
  import opened CacheTree
  import opened CacheLaws
  import opened SupportedEvents
  import opened Store
  import opened EventHeader
  import opened SubscriptionManager

  // ---- The record an event is about ------------------------------------------------------------------

  // The first event of a parked request whose ID is new and whose slot is free stores the parked record.
  ghost predicate Stores(m: ManagerState, id: string, correlationID: string) {
    correlationID in m.parked && SlotFree(m.cache, m.parked[correlationID].subscription, id)
  }

  ghost predicate IsKnown(m: ManagerState, id: string, correlationID: string) {
    id in m.cache.index || Stores(m, id, correlationID)
  }

  // That record, or the one already indexed under the ID.
  ghost function Record(m: ManagerState, id: string, correlationID: string): Subscription
    requires IsKnown(m, id, correlationID)
  {
    if id in m.cache.index then m.cache.index[id] else m.parked[correlationID].subscription.(id := id)
  }

  // The parties of the parked request, else those the tree holds for the record.
  ghost predicate PartiesOf(m: ManagerState, id: string, correlationID: string, cloud: LinkedCloud, account: LinkedAccount) {
    if correlationID in m.parked then cloud == m.parked[correlationID].linkedCloud && account == m.parked[correlationID].linkedAccount
    else
      && id in m.cache.index
      && var s := m.cache.index[id];
         && HasAccount(m.cache.clouds, s.linkedCloudID, s.linkedAccountID)
         && cloud == m.cache.clouds[s.linkedCloudID].cloud
         && account == m.cache.clouds[s.linkedCloudID].accounts[s.linkedAccountID].account
  }

  // What storing a record answers.
  lemma CreateAnswers(st: CacheState, sub: Subscription)
    requires Consistent(st)
    ensures var r := LoadOrCreateSubscription(st, sub).1;
            && (r.AccountNotFound? <==> sub.id !in st.index && !HasAccount(st.clouds, sub.linkedCloudID, sub.linkedAccountID))
            && (r.Stored? ==>
                  && (!r.loaded <==> SlotFree(st, sub, sub.id))
                  && r.data.subscription == if sub.id in st.index then st.index[sub.id]
                                            else if SlotAt(st.clouds, PathOf(sub)).Some? then SlotAt(st.clouds, PathOf(sub)).value
                                            else sub)
            && (r.Stored? ==>
                  var s := if sub.id in st.index then st.index[sub.id] else sub;
                  && HasAccount(st.clouds, s.linkedCloudID, s.linkedAccountID)
                  && r.data.linkedCloud == st.clouds[s.linkedCloudID].cloud
                  && r.data.linkedAccount == st.clouds[s.linkedCloudID].accounts[s.linkedAccountID].account)
  {
    if sub.id in st.index {
      IndexedIsFiled(st, sub.id);
    }
  }

  lemma HolderHasOwnId(st: CacheState, sub: Subscription)
    requires Consistent(st) && sub.id !in st.index && SlotAt(st.clouds, PathOf(sub)).Some?
    ensures SlotAt(st.clouds, PathOf(sub)).value.id != sub.id
  {
    SlotHolder(st, PathOf(sub));
  }

  // Main result: an event finds its record exactly if its ID is indexed or it stores the parked one; the record
  // found carries the ID of the event. The failures are told apart: the account is gone, or the slot is held by
  // another subscription, or nothing is parked and the ID unknown.
  lemma ReceiveAnswers(m: ManagerState, id: string, correlationID: string)
    requires Consistent(m.cache)
    ensures var r := Receive(m, id, correlationID).1;
            && (r.Found? <==> IsKnown(m, id, correlationID))
            && (r.Found? ==>
                  && r.data.subscription == Record(m, id, correlationID) && r.data.subscription.id == id
                  && PartiesOf(m, id, correlationID, r.data.linkedCloud, r.data.linkedAccount))
            && (correlationID in m.parked ==>
                  var sub := m.parked[correlationID].subscription;
                  && (r.NotStored? <==> id !in m.cache.index && !HasAccount(m.cache.clouds, sub.linkedCloudID, sub.linkedAccountID))
                  && (r.Duplicate? <==> id !in m.cache.index && HasAccount(m.cache.clouds, sub.linkedCloudID, sub.linkedAccountID)
                                        && SlotAt(m.cache.clouds, PathOf(sub)).Some?))
            && (r.Unknown? <==> correlationID !in m.parked && id !in m.cache.index)
  {
    hide LoadOrCreateSubscription, Consistent, SlotAt, PathOf;
    if id in m.cache.index {
      IndexedIsFiled(m.cache, id);
    }
    if correlationID in m.parked {
      var sub := m.parked[correlationID].subscription;
      PathIgnoresId(sub, id);
      CreateAnswers(m.cache, sub.(id := id));
      if id !in m.cache.index && SlotAt(m.cache.clouds, PathOf(sub)).Some? {
        HolderHasOwnId(m.cache, sub.(id := id));
      }
    } else {
      DanglingBranchUnreachable(m.cache, id);
    }
  }

  // What its arrival changes: the parked request is gone, and its record is stored or nothing else happens.
  lemma ReceiveEffect(m: ManagerState, id: string, correlationID: string)
    requires Consistent(m.cache)
    ensures var m' := Receive(m, id, correlationID).0;
            && m'.parked == m.parked - {correlationID} && m'.clouds == m.clouds && m'.accounts == m.accounts
            && Consistent(m'.cache)
            && (!Stores(m, id, correlationID) ==> m'.cache == m.cache)
            && (Stores(m, id, correlationID) ==>
                  var s := m.parked[correlationID].subscription.(id := id);
                  && m'.cache.index == m.cache.index[id := s]
                  && forall q :: SlotAt(m'.cache.clouds, q) == if q == PathOf(s) then Some(s) else SlotAt(m.cache.clouds, q))
            && forall c, a :: HasAccount(m'.cache.clouds, c, a) <==> HasAccount(m.cache.clouds, c, a)
  {
    hide LoadOrCreateSubscription, Consistent, SlotAt, PathOf, HasAccount;
    if correlationID in m.parked {
      var s := m.parked[correlationID].subscription.(id := id);
      PathIgnoresId(m.parked[correlationID].subscription, id);
      CreateSubEffect(m.cache, s);
      CreateSubKeepsConsistent(m.cache, s);
      forall c, a ensures HasAccount(LoadOrCreateSubscription(m.cache, s).0.clouds, c, a) <==> HasAccount(m.cache.clouds, c, a) {
        CreateKeepsAccounts(m.cache, s, c, a);
      }
    } else {
      assert m.parked - {correlationID} == m.parked;
      DanglingBranchUnreachable(m.cache, id);
    }
  }

  // ---- Signature -------------------------------------------------------------------------------------

  // The event is signed with the secret, over its own headers and body.
  predicate SignedWith(mac: Mac, secret: string, header: EventHeader, body: string) {
    header.eventSignature
      == Hex(mac(secret, Preimage(header.contentType, header.eventType, header.id, header.sequenceNumber, header.eventTimestamp, body)))
  }

  ghost predicate Authentic(m: ManagerState, mac: Mac, header: EventHeader, body: string) {
    && IsKnown(m, header.id, header.correlationID)
    && SignedWith(mac, Record(m, header.id, header.correlationID).signingSecret, header, body)
  }

  // Main result: an event that is not signed with the secret of its record is refused, whatever it says. It
  // removes nothing, stores no tokens and triggers nothing; all it can do is what its arrival does, and with
  // nothing parked under its correlation ID it does nothing at all.
  lemma UnsignedEventIsRefused(m: ManagerState, mac: Mac, header: EventHeader, body: string, refresh: Refresh, work: Work)
    requires Consistent(m.cache) && !Authentic(m, mac, header, body)
    ensures var (end, h) := Handle(m, mac, header, body, refresh, work);
            && h == Handled(if IsKnown(m, header.id, header.correlationID) then BadRequest else Gone, [])
            && end == Receive(m, header.id, header.correlationID).0
            && (header.correlationID !in m.parked ==> end == m)
  {
    hide Receive, Preimage, Hex;
    ReceiveAnswers(m, header.id, header.correlationID);
    ReceiveEffect(m, header.id, header.correlationID);
    if header.correlationID !in m.parked {
      assert m.parked - {header.correlationID} == m.parked;
    }
  }

  // ---- Tokens ----------------------------------------------------------------------------------------

  // Both halves of the store take the account.
  ghost predicate Takes(m: ManagerState, account: LinkedAccount) {
    ValidAccount(account) && account.id in m.accounts && HasAccount(m.cache.clouds, account.linkedCloudID, account.id)
  }

  // New target tokens are stored with the origin's, in the database and in the cache, and nothing else changes;
  // the database may take what the cache then refuses.
  lemma RenewedTokensAreStored(m: ManagerState, account: LinkedAccount, origin: Token, target: Token)
    requires Consistent(m.cache)
    ensures var renewed := LinkedAccount(account.id, account.linkedCloudID, account.userID, origin, target);
            var (m', ok) := ApplyRefresh(m, account, TokensRenewed(origin, target));
            && (ok <==> Takes(m, renewed))
            && m'.accounts == (if ValidAccount(renewed) && account.id in m.accounts then m.accounts[account.id := renewed] else m.accounts)
            && (ok ==> RecordAt(m'.cache.clouds, account.linkedCloudID, account.id) == Some(renewed))
            && (!ok ==> m'.cache == m.cache)
            && (forall c, a :: c != account.linkedCloudID || a != account.id ==> RecordAt(m'.cache.clouds, c, a) == RecordAt(m.cache.clouds, c, a))
            && (forall q :: SlotAt(m'.cache.clouds, q) == SlotAt(m.cache.clouds, q))
            && m'.cache.index == m.cache.index && m'.parked == m.parked && m'.clouds == m.clouds
  {
    hide ValidAccount, SlotAt, RecordAt, UpdateLinkedAccount;
    var renewed := LinkedAccount(account.id, account.linkedCloudID, account.userID, origin, target);
    assert Renewed(account, TokensRenewed(origin, target)) == renewed;
    ConsistentIsKeyed(m.cache);
    UpdateAccountKeepsSlots(m.cache, renewed);
    RecordsAfterUpdateAccount(m.cache, renewed);
    UpdateAnswers(m.cache, renewed);
  }

  lemma UpdateAnswers(st: CacheState, account: LinkedAccount)
    ensures var (st', ok) := UpdateLinkedAccount(st, account);
            && (ok <==> HasAccount(st.clouds, account.linkedCloudID, account.id))
            && (!ok ==> st' == st)
            && (ok ==> RecordAt(st.clouds, account.linkedCloudID, account.id).Some?)
  {
  }

  // Without new target tokens nothing is stored.
  lemma OtherRefreshesStoreNothing(m: ManagerState, account: LinkedAccount, refresh: Refresh)
    ensures !refresh.TokensRenewed? ==> ApplyRefresh(m, account, refresh) == (m, !refresh.RefreshFailed?)
    ensures Renewed(account, refresh)
         == LinkedAccount(account.id, account.linkedCloudID, account.userID,
                          if refresh.OriginRenewed? || refresh.TokensRenewed? then refresh.origin else account.origin,
                          if refresh.TokensRenewed? then refresh.target else account.target)
  {
  }

  // What a refresh leaves alone.
  lemma RefreshKeepsSlots(m: ManagerState, account: LinkedAccount, refresh: Refresh)
    requires Consistent(m.cache)
    ensures var m' := ApplyRefresh(m, account, refresh).0;
            && Consistent(m'.cache) && m'.cache.index == m.cache.index && m'.parked == m.parked
            && forall q :: SlotAt(m'.cache.clouds, q) == SlotAt(m.cache.clouds, q)
  {
    hide SlotAt, RecordAt, UpdateLinkedAccount, Consistent, Takes;
    if refresh.TokensRenewed? {
      RenewedTokensAreStored(m, account, refresh.origin, refresh.target);
      ApplyKeepsConsistent(m.cache, Op.UpdateAccount(Renewed(account, refresh)));
    }
  }

  // ---- Status ----------------------------------------------------------------------------------------

  // The tokens are fresh, or were refreshed and, where needed, stored.
  ghost predicate Refreshes(m: ManagerState, header: EventHeader, refresh: Refresh) {
    && !refresh.RefreshFailed?
    && (refresh.TokensRenewed? ==>
          forall cloud, account :: PartiesOf(m, header.id, header.correlationID, cloud, account) ==>
            Takes(m, account.(origin := refresh.origin, target := refresh.target)))
  }

  // The events a subscription of each type is for.
  predicate Expected(typ: string, eventType: string) {
    || (typ == "devices" && (eventType == "devices_registered" || eventType == "devices_unregistered"
                             || eventType == "devices_online" || eventType == "devices_offline"))
    || (typ == "device" && (eventType == "resources_published" || eventType == "resources_unpublished"))
    || (typ == "resource" && eventType == "resource_contentchanged")
  }

  lemma SupportedIsExpected(typ: string, eventType: string)
    ensures Supported(typ, eventType) <==> Expected(typ, eventType)
  {
  }

  lemma RefreshSucceedsExactly(m: ManagerState, header: EventHeader, refresh: Refresh)
    requires Consistent(m.cache) && IsKnown(m, header.id, header.correlationID)
    ensures var (m', r) := Receive(m, header.id, header.correlationID);
            r.Found? && (ApplyRefresh(m', r.data.linkedAccount, refresh).1 <==> Refreshes(m, header, refresh))
  {
    hide Receive, ValidAccount, Consistent, HasAccount;
    ReceiveAnswers(m, header.id, header.correlationID);
    ReceiveEffect(m, header.id, header.correlationID);
    var (m', r) := Receive(m, header.id, header.correlationID);
    if refresh.TokensRenewed? {
      RenewedTokensAreStored(m', r.data.linkedAccount, refresh.origin, refresh.target);
      PartiesAreUnique(m, header.id, header.correlationID, r.data.linkedCloud, r.data.linkedAccount);
    }
  }

  lemma PartiesAreUnique(m: ManagerState, id: string, correlationID: string, cloud: LinkedCloud, account: LinkedAccount)
    requires PartiesOf(m, id, correlationID, cloud, account)
    ensures forall c, a :: PartiesOf(m, id, correlationID, c, a) ==> c == cloud && a == account
  {
  }

  // Main result: the status of every event. Gone without a record; OK for a signed and refreshed event that is a
  // cancellation, or one its subscription is for and whose work succeeds; a server error if the tokens cannot be
  // refreshed; a bad request in all other cases.
  lemma StatusOfEvent(m: ManagerState, mac: Mac, header: EventHeader, body: string, refresh: Refresh, work: Work)
    requires Consistent(m.cache)
    ensures var h := Handle(m, mac, header, body, refresh, work).1;
            var known := IsKnown(m, header.id, header.correlationID);
            var signed := Authentic(m, mac, header, body);
            && (h.status == Gone <==> !known)
            && (h.status == InternalServerError <==> signed && !Refreshes(m, header, refresh))
            && (h.status == StatusOK <==>
                  && signed && Refreshes(m, header, refresh)
                  && (header.eventType == "subscription_cancelled"
                      || (Expected(Record(m, header.id, header.correlationID).typ, header.eventType)
                          && work.decoded && forall i :: 0 <= i < |work.items| ==> work.items[i].ok)))
            && (h.tasks != [] ==> signed && Refreshes(m, header, refresh) && header.eventType != "subscription_cancelled")
  {
    hide Receive, Preimage, Hex, ApplyRefresh, Refreshes, Expected, Supported, Removed, RemoveAll, Triggered, Cancel, Consistent;
    ReceiveAnswers(m, header.id, header.correlationID);
    if Authentic(m, mac, header, body) {
      RefreshSucceedsExactly(m, header, refresh);
      var (m', r) := Receive(m, header.id, header.correlationID);
      SupportedIsExpected(r.data.subscription.typ, header.eventType);
      CancelSucceeds(m, header, refresh);
    }
  }

  lemma CancelSucceeds(m: ManagerState, header: EventHeader, refresh: Refresh)
    requires Consistent(m.cache) && IsKnown(m, header.id, header.correlationID)
    ensures var (m', r) := Receive(m, header.id, header.correlationID);
            r.Found? && Cancel(ApplyRefresh(m', r.data.linkedAccount, refresh).0, header.id).1
  {
    hide Receive, ApplyRefresh, Consistent, PullOutSubscription;
    ReceiveAnswers(m, header.id, header.correlationID);
    ReceiveEffect(m, header.id, header.correlationID);
    var (m', r) := Receive(m, header.id, header.correlationID);
    RefreshKeepsSlots(m', r.data.linkedAccount, refresh);
    PullOutSubEffect(ApplyRefresh(m', r.data.linkedAccount, refresh).0.cache, header.id);
  }

  // ---- What is removed -------------------------------------------------------------------------------

  // A signed cancellation leaves neither slot nor index entry of its subscription, parked or stored, and touches
  // no other.
  lemma CancellationIsExact(m: ManagerState, mac: Mac, header: EventHeader, body: string, refresh: Refresh, work: Work)
    requires Consistent(m.cache) && Authentic(m, mac, header, body) && Refreshes(m, header, refresh)
    requires header.eventType == SUBSCRIPTION_CANCELED
    ensures var (end, h) := Handle(m, mac, header, body, refresh, work);
            && h == Handled(StatusOK, [])
            && end.cache.index == m.cache.index - {header.id} && end.parked == m.parked - {header.correlationID}
            && forall q :: SlotAt(end.cache.clouds, q) ==
                           if q == PathOf(Record(m, header.id, header.correlationID)) then None else SlotAt(m.cache.clouds, q)
  {
    hide Receive, ApplyRefresh, Refreshes, Consistent, PullOutSubscription, SlotAt, PathOf, Preimage, Hex, SlotFree;
    ReceiveAnswers(m, header.id, header.correlationID);
    ReceiveEffect(m, header.id, header.correlationID);
    RefreshSucceedsExactly(m, header, refresh);
    CancelSucceeds(m, header, refresh);
    var (m', r) := Receive(m, header.id, header.correlationID);
    RefreshKeepsSlots(m', r.data.linkedAccount, refresh);
    PullOutSubEffect(ApplyRefresh(m', r.data.linkedAccount, refresh).0.cache, header.id);
    StoredRecordIsNew(m, header.id, header.correlationID);
  }

  lemma StoredRecordIsNew(m: ManagerState, id: string, correlationID: string)
    ensures Stores(m, id, correlationID) ==>
              id !in m.cache.index && SlotAt(m.cache.clouds, PathOf(m.parked[correlationID].subscription.(id := id))).None?
  {
    if correlationID in m.parked {
      PathIgnoresId(m.parked[correlationID].subscription, id);
    }
  }

  ghost predicate Named(work: Work, name: string) {
    work.decoded && exists i :: 0 <= i < |work.items| && work.items[i].name == name
  }

  // The slots a signed event removes: all slots of unregistered devices, or those of unpublished resources of the
  // device of the subscription, in the account of the event.
  ghost predicate RemovedBy(sub: Subscription, account: LinkedAccount, eventType: string, work: Work, q: Path) {
    && q.cloud == account.linkedCloudID && q.account == account.id && !q.DevicesPath?
    && ((sub.typ == "devices" && eventType == "devices_unregistered" && Named(work, q.device))
        || (sub.typ == "device" && eventType == "resources_unpublished" && q.ResourcePath?
            && q.device == sub.deviceID && Named(work, q.href)))
  }

  lemma RemovedIsRemovedBy(data: SubscriptionData, eventType: string, work: Work, q: Path)
    ensures CoveredByAny(Removed(data, eventType, work), q)
       <==> RemovedBy(data.subscription, data.linkedAccount, eventType, work, q)
  {
    var scopes := Removed(data, eventType, work);
    if RemovedBy(data.subscription, data.linkedAccount, eventType, work, q) {
      var name := if data.subscription.typ == "devices" then q.device else q.href;
      var i :| 0 <= i < |work.items| && work.items[i].name == name;
      assert Covers(scopes[i], q);
    }
    if CoveredByAny(scopes, q) {
      var i :| 0 <= i < |scopes| && Covers(scopes[i], q);
      assert 0 <= i < |work.items|;
    }
  }

  lemma {:induction false} RemovalUnparks(m: ManagerState, correlationID: string, scopes: seq<Scope>)
    ensures RemoveAll(m, correlationID, scopes).parked == if scopes == [] then m.parked else m.parked - {correlationID}
  {
    if scopes != [] {
      RemovalUnparks(m, correlationID, scopes[..|scopes| - 1]);
      assert m.parked - {correlationID} - {correlationID} == m.parked - {correlationID};
    }
  }

  // Main result: what a signed event that is no cancellation leaves in the slots and the index: what its arrival
  // stored, without exactly the devices or resources it names as gone.
  lemma EventRemovesExactly(m: ManagerState, mac: Mac, header: EventHeader, body: string, refresh: Refresh, work: Work)
    requires Consistent(m.cache) && Authentic(m, mac, header, body) && Refreshes(m, header, refresh)
    requires header.eventType != SUBSCRIPTION_CANCELED
    ensures var (arrived, r) := Receive(m, header.id, header.correlationID);
            var end := Handle(m, mac, header, body, refresh, work).0;
            && r.Found? && Consistent(end.cache) && end.parked == m.parked - {header.correlationID}
            && (forall q :: SlotAt(end.cache.clouds, q) ==
                  if RemovedBy(Record(m, header.id, header.correlationID), r.data.linkedAccount, header.eventType, work, q)
                  then None else SlotAt(arrived.cache.clouds, q))
            && (forall id :: id in end.cache.index <==>
                  id in arrived.cache.index
                  && !RemovedBy(Record(m, header.id, header.correlationID), r.data.linkedAccount, header.eventType, work, PathOf(arrived.cache.index[id])))
  {
    hide Receive, ApplyRefresh, Refreshes, Consistent, SlotAt, PathOf, Preimage, Hex, SlotFree, Removed, RemoveAll, RemovedBy, CoveredByAny, Triggered;
    ReceiveAnswers(m, header.id, header.correlationID);
    ReceiveEffect(m, header.id, header.correlationID);
    RefreshSucceedsExactly(m, header, refresh);
    var (arrived, r) := Receive(m, header.id, header.correlationID);
    RefreshKeepsSlots(arrived, r.data.linkedAccount, refresh);
    var refreshed := ApplyRefresh(arrived, r.data.linkedAccount, refresh).0;
    var data := r.data.(linkedAccount := Renewed(r.data.linkedAccount, refresh));
    var scopes := Removed(data, header.eventType, work);
    RemovalIsExact(refreshed, header.correlationID, scopes);
    RemovalUnparks(refreshed, header.correlationID, scopes);
    forall q ensures CoveredByAny(scopes, q) <==> RemovedBy(r.data.subscription, r.data.linkedAccount, header.eventType, work, q) {
      RemovedIsRemovedBy(data, header.eventType, work, q);
      SamePlace(r.data.subscription, r.data.linkedAccount, refresh, header.eventType, work, q);
    }
    assert m.parked - {header.correlationID} - {header.correlationID} == m.parked - {header.correlationID};
  }

  // New tokens leave the account where it is.
  lemma SamePlace(sub: Subscription, account: LinkedAccount, refresh: Refresh, eventType: string, work: Work, q: Path)
    ensures RemovedBy(sub, Renewed(account, refresh), eventType, work, q) <==> RemovedBy(sub, account, eventType, work, q)
  {
  }

  // ---- What is triggered -----------------------------------------------------------------------------

  // The task for an accepted item, if the cloud calls for one: a pull of a new device if device events are
  // static, a subscription if the cloud pushes both device events; a subscription to a new resource if the cloud
  // pushes its changes.
  ghost predicate TaskOfItem(data: SubscriptionData, eventType: string, item: Item, t: Task) {
    var e := data.linkedCloud.supportedEvents;
    && item.ok && t.linkedCloud == data.linkedCloud && t.linkedAccount == data.linkedAccount
    && ((data.subscription.typ == "devices" && eventType == "devices_registered" && t.deviceID == item.name && t.href == ""
         && ((e.staticDeviceEvents && t.taskType == PullDevice)
             || (!e.staticDeviceEvents && "resources_published" in e.device && "resources_unpublished" in e.device
                 && t.taskType == SubscribeToDevice)))
        || (data.subscription.typ == "device" && eventType == "resources_published"
            && t.deviceID == data.subscription.deviceID && t.href == item.name
            && "resource_contentchanged" in e.resource && t.taskType == SubscribeToResource))
  }

  lemma TaskForIsTaskOfItem(data: SubscriptionData, eventType: string, item: Item, t: Task)
    requires item.ok
    ensures t in TaskFor(data, eventType, item.name) <==> TaskOfItem(data, eventType, item, t)
  {
    EventNames(data.linkedCloud.supportedEvents);
  }

  lemma {:induction false} TriggeredExactly(data: SubscriptionData, eventType: string, items: seq<Item>, t: Task)
    ensures t in TasksFor(data, eventType, items) <==> exists i :: 0 <= i < |items| && TaskOfItem(data, eventType, items[i], t)
  {
    if items != [] {
      var n := |items| - 1;
      TriggeredExactly(data, eventType, items[..n], t);
      if items[n].ok {
        TaskForIsTaskOfItem(data, eventType, items[n], t);
      }
      hide TaskOfItem, TaskFor;
      if i :| 0 <= i < n && TaskOfItem(data, eventType, items[..n][i], t) {
        assert TaskOfItem(data, eventType, items[i], t);
      }
      if i :| 0 <= i < n && TaskOfItem(data, eventType, items[i], t) {
        assert TaskOfItem(data, eventType, items[..n][i], t);
      }
      NotOkNoTask(data, eventType, items[n], t);
    }
  }

  lemma NotOkNoTask(data: SubscriptionData, eventType: string, item: Item, t: Task)
    ensures TaskOfItem(data, eventType, item, t) ==> item.ok
  {
  }

  // Main result: the tasks a signed and refreshed event triggers, with the account's new tokens in them.
  lemma TasksOfEvent(m: ManagerState, mac: Mac, header: EventHeader, body: string, refresh: Refresh, work: Work, t: Task)
    requires Consistent(m.cache) && Authentic(m, mac, header, body) && Refreshes(m, header, refresh)
    requires header.eventType != SUBSCRIPTION_CANCELED
    ensures var data := Receive(m, header.id, header.correlationID).1.data;
            var served := data.(linkedAccount := Renewed(data.linkedAccount, refresh));
            var h := Handle(m, mac, header, body, refresh, work).1;
            t in h.tasks <==>
              work.decoded && exists i :: 0 <= i < |work.items| && TaskOfItem(served, header.eventType, work.items[i], t)
  {
    hide Receive, ApplyRefresh, Refreshes, Consistent, Preimage, Hex, SlotFree, Removed, RemoveAll, TasksFor, TaskOfItem;
    ReceiveAnswers(m, header.id, header.correlationID);
    RefreshSucceedsExactly(m, header, refresh);
    var data := Receive(m, header.id, header.correlationID).1.data;
    TriggeredExactly(data.(linkedAccount := Renewed(data.linkedAccount, refresh)), header.eventType, work.items, t);
  }

  // ---- Requests and responses ------------------------------------------------------------------------

  // A subscribe request does nothing for a filled slot or a taken correlation ID; else it parks a record without
  // ID for that slot, with its own secret and correlation ID, and its parties.
  lemma BeginAnswers(m: ManagerState, p: Path, account: LinkedAccount, cloud: LinkedCloud, signingSecret: string, correlationID: string)
    ensures var (m', r) := Begin(m, p, account, cloud, signingSecret, correlationID);
            && (r == AlreadySubscribed <==> SlotAt(m.cache.clouds, p).Some?)
            && (r == CorrelationTaken <==> SlotAt(m.cache.clouds, p).None? && correlationID in m.parked)
            && (!r.Parked? ==> m' == m)
            && (r.Parked? ==>
                  && r.sub.id == "" && r.sub.signingSecret == signingSecret && r.sub.correlationID == correlationID
                  && r.sub.linkedAccountID == account.id && r.sub.linkedCloudID == cloud.id
                  && (p.cloud == cloud.id && p.account == account.id ==> PathOf(r.sub) == p)
                  && m' == m.(parked := m'.parked)
                  && m'.parked.Keys == m.parked.Keys + {correlationID}
                  && m'.parked[correlationID] == SubscriptionData(account, cloud, r.sub)
                  && forall c :: c in m.parked ==> m'.parked[c] == m.parked[c])
  {
  }

  // The path a subscribe request is posted to.
  function SubscribeHref(sub: Subscription): string {
    if sub.typ == "devices" then "/devices/subscriptions"
    else if sub.typ == "device" then "/devices/" + sub.deviceID + "/subscriptions"
    else "/devices/" + sub.deviceID + sub.href + "/subscriptions"
  }

  // A subscription is cancelled where it was asked for, under its ID.
  lemma CancelledWhereSubscribed(sub: Subscription)
    ensures SubscriptionHref(sub) == SubscribeHref(sub) + "/" + sub.id
  {
  }

  // A refused request is unparked, and only that; a granted one is stored if its ID is new and its slot free.
  // Only a missing account makes a granted one fail, and then it is cancelled at the remote; a device goes into
  // the projection, whose failure leaves it stored.
  lemma RespondAnswers(m: ManagerState, sub: Subscription, id: string, added: bool)
    requires Consistent(m.cache)
    ensures Respond(m, sub, None) == (m.(parked := m.parked - {sub.correlationID}), RequestFailed)
    ensures var (m', r) := Respond(m, sub, Some(id));
            var stored := sub.(id := id);
            && m' == m.(cache := m'.cache)
            && m'.cache.index == (if SlotFree(m.cache, sub, id) then m.cache.index[id := stored] else m.cache.index)
            && (forall q :: SlotAt(m'.cache.clouds, q) ==
                  if SlotFree(m.cache, sub, id) && q == PathOf(stored) then Some(stored) else SlotAt(m.cache.clouds, q))
            && Register(r, added) ==
                 if id !in m.cache.index && !HasAccount(m.cache.clouds, sub.linkedCloudID, sub.linkedAccountID)
                 then StoreFailed(SubscribeHref(sub) + "/" + id)
                 else if sub.typ != "device" then Subscribed(None)
                 else if added then Subscribed(Some(sub.deviceID)) else ProjectionFailed(sub.deviceID)
  {
    hide LoadOrCreateSubscription, SlotAt, PathOf, HasAccount, Consistent, SubscriptionHref;
    PathIgnoresId(sub, id);
    CreateSubEffect(m.cache, sub.(id := id));
    CreateAnswers(m.cache, sub.(id := id));
    CancelledWhereSubscribed(sub.(id := id));
  }

  // ---- Look-ups and clouds ---------------------------------------------------------------------------

  // What pulling a subscription out hands back.
  lemma PullOutAnswers(st: CacheState, id: string)
    requires Consistent(st)
    ensures var (_, data, ok) := PullOutSubscription(st, id);
            && (ok <==> id in st.index)
            && (!ok ==> data == NO_DATA)
            && (ok ==>
                  var s := st.index[id];
                  && HasAccount(st.clouds, s.linkedCloudID, s.linkedAccountID)
                  && data == SubscriptionData(st.clouds[s.linkedCloudID].accounts[s.linkedAccountID].account, st.clouds[s.linkedCloudID].cloud, s))
  {
    if id in st.index {
      IndexedIsFiled(st, id);
    }
  }

  // The cloud or account handed back is the one the cache now holds, and "loaded" says that it was there before.
  lemma CreateRecordAnswers(st: CacheState, cloud: LinkedCloud, account: LinkedAccount)
    ensures var (st', c, loaded) := LoadOrCreateCloud(st, cloud);
            && cloud.id in st'.clouds && c == st'.clouds[cloud.id].cloud && (loaded <==> cloud.id in st.clouds)
            && (loaded ==> st' == st) && (!loaded ==> c == cloud)
    ensures var (st', a, loaded, found) := LoadOrCreateLinkedAccount(st, account);
            && (found <==> account.linkedCloudID in st.clouds)
            && (loaded <==> HasAccount(st.clouds, account.linkedCloudID, account.id))
            && (found ==> HasAccount(st'.clouds, account.linkedCloudID, account.id)
                          && a == st'.clouds[account.linkedCloudID].accounts[account.id].account)
            && (found && !loaded ==> a == account) && (loaded || !found ==> st' == st)
  {
  }
}
