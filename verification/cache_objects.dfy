/**
 * The subscription cache as the connector holds it: objects updated in place, one class a level. `View` gives
 * the value an object stands for and every method is specified by a function of CacheTree on views. `Repr` is
 * the set of objects a subtree is made of; sibling subtrees never share any.
 */
module CacheObjects {
  import opened Records
  import opened CacheTree
  import opened SubscriptionTasks
  import opened SupportedEvents

  class ResourceData {
    var isSubscribed: bool
    var subscription: Subscription

    ghost function View(): Option<Subscription>
      reads this
    {
      if isSubscribed then Some(subscription) else None
    }

    constructor ()
      ensures View() == None
    {
      isSubscribed := false;
      subscription := NO_SUBSCRIPTION;
    }

    method LoadOrCreate(sub: Subscription) returns (s: Subscription, loaded: bool)
      modifies this
      ensures loaded == old(View()).Some?
      ensures s == if loaded then old(View()).value else sub
      ensures View() == Some(s)
    {
      if isSubscribed {
        return subscription, true;
      }
      isSubscribed := true;
      subscription := sub;
      return sub, false;
    }

    method PullOut(sub: Subscription) returns (s: Subscription, ok: bool)
      modifies this
      ensures ok == (old(View()).Some? && old(View()).value.id == sub.id)
      ensures s == if ok then old(View()).value else NO_SUBSCRIPTION
      ensures View() == if ok then None else old(View())
    {
      if !isSubscribed {
        return NO_SUBSCRIPTION, false;
      }
      if subscription.id != sub.id {
        return NO_SUBSCRIPTION, false;
      }
      s := subscription;
      isSubscribed := false;
      subscription := NO_SUBSCRIPTION;
      return s, true;
    }

    method DumpTasks(cloud: LinkedCloud, account: LinkedAccount, deviceID: string, href: string) returns (out: seq<Task>)
      ensures forall t :: t in out <==> t in ResourceTasks(View(), cloud, account, deviceID, href)
      ensures NoDuplicates(out)
    {
      out := [];
      if !isSubscribed {
        out := out + [Task(SubscribeToResource, cloud, account, deviceID, href)];
      }
    }
  }

  class DeviceData {
    var resources: map<string, ResourceData>
    var isSubscribed: bool
    var subscription: Subscription
    ghost var Repr: set<object>

    ghost predicate Valid()
      reads this, Repr
      ensures Valid() ==> this in Repr
    {
      && this in Repr
      && (forall h :: h in resources ==> resources[h] in Repr)
      && (forall h, k :: h in resources && k in resources && h != k ==> resources[h] != resources[k])
    }

    ghost function View(): DeviceTree
      requires Valid()
      reads this, Repr
    {
      DeviceTree(if isSubscribed then Some(subscription) else None, map h | h in resources :: resources[h].View())
    }

    constructor ()
      ensures Valid() && fresh(Repr)
      ensures View() == DeviceTree(None, map[])
    {
      resources := map[];
      isSubscribed := false;
      subscription := NO_SUBSCRIPTION;
      Repr := {this};
    }

    method LoadOrCreate(sub: Subscription) returns (s: Subscription, loaded: bool)
      requires Valid() && !PathOf(sub).DevicesPath?
      modifies Repr
      ensures Valid() && fresh(Repr - old(Repr))
      ensures loaded == DeviceSlot(old(View()), PathOf(sub)).Some?
      ensures s == if loaded then DeviceSlot(old(View()), PathOf(sub)).value else sub
      ensures View() == if loaded then old(View()) else DevicePut(old(View()), PathOf(sub), Some(sub))
    {
      if sub.typ == TYPE_DEVICE {
        if isSubscribed {
          return subscription, true;
        }
        isSubscribed := true;
        subscription := sub;
        return sub, false;
      }
      s, loaded := LoadOrCreateBelow(sub);
    }

    method LoadOrCreateBelow(sub: Subscription) returns (s: Subscription, loaded: bool)
      requires Valid() && PathOf(sub).ResourcePath?
      modifies Repr
      ensures Valid() && fresh(Repr - old(Repr))
      ensures loaded == DeviceSlot(old(View()), PathOf(sub)).Some?
      ensures s == if loaded then DeviceSlot(old(View()), PathOf(sub)).value else sub
      ensures View() == if loaded then old(View()) else DevicePut(old(View()), PathOf(sub), Some(sub))
    {
      hide DeviceData.Valid, DeviceData.View, ResourceData.View;
      ResourceShape(sub.href);
      LoadOrStoreResource(sub.href);
      ResourceShape(sub.href);
      ghost var created := View();
      label Before:
      s, loaded := resources[sub.href].LoadOrCreate(sub);
      ResourceChanged@Before(sub.href);
      assert created.(resources := created.resources[sub.href := created.resources[sub.href]]) == created;
    }

    // One resource changed in place, nothing else did.
    twostate lemma ResourceChanged(href: string)
      requires old(Valid()) && href in old(resources)
      requires resources == old(resources) && isSubscribed == old(isSubscribed) && subscription == old(subscription) && Repr == old(Repr)
      requires forall o | o in old(Repr) && o != resources[href] :: unchanged(o)
      ensures Valid()
      ensures View() == old(View()).(resources := old(View()).resources[href := resources[href].View()])
    {
      forall h | h in resources && h != href ensures resources[h].View() == old(resources[h].View()) {
        assert resources[h] != resources[href];
      }
    }

    method LoadOrStoreResource(href: string)
      requires Valid()
      modifies this
      ensures Valid() && fresh(Repr - old(Repr)) && old(Repr) <= Repr && href in resources
      ensures View() == if href in old(resources) then old(View()) else old(View()).(resources := old(View()).resources[href := None])
    {
      if href !in resources {
        var r := new ResourceData();
        resources := resources[href := r];
        Repr := Repr + {r};
      }
    }

    method PullOut(sub: Subscription) returns (s: Subscription, ok: bool)
      requires Valid() && !PathOf(sub).DevicesPath?
      modifies Repr
      ensures Valid() && Repr == old(Repr)
      ensures var slot := DeviceSlot(old(View()), PathOf(sub));
              && ok == (slot.Some? && slot.value.id == sub.id)
              && s == (if ok then slot.value else NO_SUBSCRIPTION)
      ensures View() == if ok then DevicePut(old(View()), PathOf(sub), None) else old(View())
    {
      if sub.typ == TYPE_DEVICE {
        if !isSubscribed {
          return NO_SUBSCRIPTION, false;
        }
        if subscription.id != sub.id {
          return NO_SUBSCRIPTION, false;
        }
        s := subscription;
        isSubscribed := false;
        subscription := NO_SUBSCRIPTION;
        return s, true;
      }
      if sub.href !in resources {
        return NO_SUBSCRIPTION, false;
      }
      s, ok := resources[sub.href].PullOut(sub);
    }

    method DumpTasks(cloud: LinkedCloud, account: LinkedAccount, deviceID: string) returns (out: seq<Task>)
      requires Valid()
      ensures forall t :: t in out <==> t in DeviceTasks(View(), cloud, account, deviceID)
      ensures NoDuplicates(out)
    {
      out := [];
      var pullDevice := NeedPullDevice(cloud.supportedEvents);
      if !pullDevice && !cloud.supportedEvents.staticDeviceEvents {
        if !isSubscribed {
          out := out + [Task(SubscribeToDevice, cloud, account, deviceID, "")];
        }
      }
      var pullResources := NeedPullResources(cloud.supportedEvents);
      ghost var first := out;
      if pullResources {
        DeviceTasksGathered(View(), cloud, account, deviceID, first, out);
        return;
      }
      ghost var parts := ResourceParts(View(), cloud, account, deviceID);
      ResourcePartsSeparate(View(), cloud, account, deviceID, first);
      var hrefs := resources.Keys;
      while hrefs != {}
        invariant hrefs <= resources.Keys
        invariant Gathered(out, first, parts, hrefs)
      {
        var href :| href in hrefs;
        var v := resources[href].DumpTasks(cloud, account, deviceID, href);
        GatherOne(out, first, parts, hrefs, href, v);
        out := out + v;
        hrefs := hrefs - {href};
      }
      DeviceTasksGathered(View(), cloud, account, deviceID, first, out);
    }

    lemma Shape()
      requires Valid()
      ensures View().resources.Keys == resources.Keys
      ensures View().slot == if isSubscribed then Some(subscription) else None
    {
    }

    lemma ResourceShape(href: string)
      requires Valid()
      ensures href in View().resources <==> href in resources
      ensures href in resources ==> resources[href] in Repr && View().resources[href] == resources[href].View()
    {
    }

    method PullOutResource(href: string) returns (resource: ResourceData?)
      requires Valid()
      modifies this
      ensures Valid() && Repr == old(Repr)
      ensures resource == null ==> unchanged(this)
      ensures resource == if href in old(resources) then old(resources[href]) else null
      ensures resource != null ==> resource in Repr
      ensures View() == old(View()).(resources := old(View()).resources - {href})
    {
      if href !in resources {
        return null;
      }
      resource := resources[href];
      resources := resources - {href};
    }
  }

  class LinkedAccountData {
    var devices: map<string, DeviceData>
    var linkedAccount: LinkedAccount
    var isSubscribed: bool
    var subscription: Subscription
    ghost var Repr: set<object>

    ghost predicate Valid()
      reads this, Repr
      ensures Valid() ==> this in Repr
    {
      && this in Repr
      && (forall d :: d in devices ==>
            devices[d] in Repr && devices[d].Repr <= Repr && this !in devices[d].Repr && devices[d].Valid())
      && (forall d, e :: d in devices && e in devices && d != e ==> devices[d].Repr !! devices[e].Repr)
    }

    ghost function View(): AccountTree
      requires Valid()
      reads this, Repr
    {
      AccountTree(linkedAccount, if isSubscribed then Some(subscription) else None, map d | d in devices :: devices[d].View())
    }

    constructor (linkedAccount: LinkedAccount)
      ensures Valid() && fresh(Repr)
      ensures View() == AccountTree(linkedAccount, None, map[])
    {
      this.linkedAccount := linkedAccount;
      devices := map[];
      isSubscribed := false;
      subscription := NO_SUBSCRIPTION;
      Repr := {this};
    }

    method LoadOrCreate(sub: Subscription) returns (s: Subscription, loaded: bool)
      requires Valid()
      modifies Repr
      ensures Valid() && fresh(Repr - old(Repr))
      ensures loaded == AccountSlot(old(View()), PathOf(sub)).Some?
      ensures s == if loaded then AccountSlot(old(View()), PathOf(sub)).value else sub
      ensures View() == if loaded then old(View()) else AccountPut(old(View()), PathOf(sub), Some(sub))
    {
      if sub.typ == TYPE_DEVICES {
        if isSubscribed {
          return subscription, true;
        }
        isSubscribed := true;
        subscription := sub;
        return sub, false;
      }
      s, loaded := LoadOrCreateBelow(sub);
    }

    method LoadOrCreateBelow(sub: Subscription) returns (s: Subscription, loaded: bool)
      requires Valid() && !PathOf(sub).DevicesPath?
      modifies Repr
      ensures Valid() && fresh(Repr - old(Repr))
      ensures loaded == AccountSlot(old(View()), PathOf(sub)).Some?
      ensures s == if loaded then AccountSlot(old(View()), PathOf(sub)).value else sub
      ensures View() == if loaded then old(View()) else AccountPut(old(View()), PathOf(sub), Some(sub))
    {
      hide LinkedAccountData.Valid, LinkedAccountData.View, DeviceData.Valid, DeviceData.View, AccountSlot, AccountPut, DeviceSlot, DevicePut;
      DeviceShape(sub.deviceID);
      var device := LoadOrStoreDevice(sub.deviceID);
      DeviceShape(sub.deviceID);
      ghost var created := View();
      label Before:
      s, loaded := device.LoadOrCreate(sub);
      Repr := Repr + device.Repr;
      DeviceChanged@Before(sub.deviceID);
      CreateThenPut(old(View()), created, PathOf(sub), Some(sub));
      SlotOfDevice(created, PathOf(sub));
    }

    static lemma SlotOfDevice(a: AccountTree, p: Path)
      requires !p.DevicesPath? && p.device in a.devices
      ensures AccountSlot(a, p) == DeviceSlot(a.devices[p.device], p)
    {
    }

    static lemma CreateThenPut(a: AccountTree, created: AccountTree, p: Path, v: Option<Subscription>)
      requires !p.DevicesPath?
      requires created == if p.device in a.devices then a else a.(devices := a.devices[p.device := DeviceTree(None, map[])])
      ensures AccountSlot(created, p) == AccountSlot(a, p)
      ensures AccountSlot(created, p).Some? ==>
                created.(devices := created.devices[p.device := created.devices[p.device]]) == a
      ensures created.(devices := created.devices[p.device := DevicePut(created.devices[p.device], p, v)]) == AccountPut(a, p, v)
    {
    }

    method LoadOrStoreDevice(deviceID: string) returns (device: DeviceData)
      requires Valid()
      modifies this
      ensures Valid() && fresh(Repr - old(Repr)) && old(Repr) <= Repr
      ensures deviceID in devices && devices[deviceID] == device
      ensures View() == if deviceID in old(devices) then old(View())
                        else old(View()).(devices := old(View()).devices[deviceID := DeviceTree(None, map[])])
    {
      hide LinkedAccountData.Valid, LinkedAccountData.View, DeviceData.Valid, DeviceData.View;
      if deviceID in devices {
        return devices[deviceID];
      }
      device := new DeviceData();
      devices := devices[deviceID := device];
      Repr := Repr + device.Repr;
      DeviceAdded(deviceID);
    }

    // One device was added, nothing else changed.
    twostate predicate Added(id: string)
      reads this, devices.Values
    {
      && id !in old(devices) && id in devices && devices == old(devices)[id := devices[id]]
      && linkedAccount == old(linkedAccount) && isSubscribed == old(isSubscribed) && subscription == old(subscription)
      && Repr == old(Repr) + devices[id].Repr
    }

    twostate lemma OthersKept(id: string)
      requires old(Valid()) && Added(id) && fresh(devices[id].Repr)
      requires forall o | o in old(Repr) && o != this :: unchanged(o)
      ensures forall d :: d in old(devices) ==>
                && devices[d] in old(Repr) && devices[d].Repr <= old(Repr) && this !in devices[d].Repr
                && devices[d].Valid() && devices[d].View() == old(devices[d].View())
                && devices[d].Repr == old(devices[d].Repr) && devices[d].Repr !! devices[id].Repr
    {
      hide DeviceData.Valid, DeviceData.View;
    }

    twostate lemma ValidWhenAdded(id: string)
      requires old(Valid()) && Added(id) && devices[id].Valid() && fresh(devices[id].Repr)
      requires forall o | o in old(Repr) && o != this :: unchanged(o)
      ensures Valid()
    {
      hide DeviceData.Valid, DeviceData.View, LinkedAccountData.View;
      OthersKept(id);
      forall d, e | d in devices && e in devices && d != e ensures devices[d].Repr !! devices[e].Repr {
        if d != id && e != id {
          assert old(devices[d].Repr) !! old(devices[e].Repr);
        }
      }
    }

    twostate lemma ViewWhenAdded(id: string)
      requires old(Valid()) && Valid() && Added(id) && devices[id].Valid()
      requires forall d :: d in old(devices) ==> devices[d].Valid() && devices[d].View() == old(devices[d].View())
      ensures View() == old(View()).(devices := old(View()).devices[id := devices[id].View()])
    {
      hide DeviceData.Valid, DeviceData.View, LinkedAccountData.Valid;
    }

    twostate lemma DeviceAdded(id: string)
      requires old(Valid()) && Added(id) && devices[id].Valid() && fresh(devices[id].Repr)
      requires forall o | o in old(Repr) && o != this :: unchanged(o)
      ensures Valid()
      ensures View() == old(View()).(devices := old(View()).devices[id := devices[id].View()])
    {
      hide DeviceData.Valid, DeviceData.View, LinkedAccountData.Valid, LinkedAccountData.View;
      ValidWhenAdded(id);
      OthersKept(id);
      ViewWhenAdded(id);
    }

    // One device changed in place, nothing else did.
    twostate lemma DeviceChanged(id: string)
      requires old(Valid()) && id in old(devices)
      requires devices == old(devices) && linkedAccount == old(linkedAccount)
      requires isSubscribed == old(isSubscribed) && subscription == old(subscription)
      requires devices[id].Valid() && fresh(devices[id].Repr - old(devices[id].Repr))
      requires Repr == old(Repr) + devices[id].Repr
      requires forall o | o in old(Repr) && o !in old(devices[id].Repr) && o != this :: unchanged(o)
      ensures Valid()
      ensures View() == old(View()).(devices := old(View()).devices[id := devices[id].View()])
    {
      hide DeviceData.Valid, DeviceData.View;
      forall d | d in devices && d != id
        ensures devices[d].Valid() && devices[d].View() == old(devices[d].View()) && devices[d].Repr == old(devices[d].Repr)
      {
        assert old(devices[d].Repr) !! old(devices[id].Repr);
      }
    }

    method PullOut(sub: Subscription) returns (s: Subscription, ok: bool)
      requires Valid()
      modifies Repr
      ensures Valid() && Repr == old(Repr)
      ensures var slot := AccountSlot(old(View()), PathOf(sub));
              && ok == (slot.Some? && slot.value.id == sub.id)
              && s == (if ok then slot.value else NO_SUBSCRIPTION)
      ensures View() == if ok then AccountPut(old(View()), PathOf(sub), None) else old(View())
    {
      if sub.typ == TYPE_DEVICES {
        if !isSubscribed {
          return NO_SUBSCRIPTION, false;
        }
        if subscription.id != sub.id {
          return NO_SUBSCRIPTION, false;
        }
        s := subscription;
        isSubscribed := false;
        subscription := NO_SUBSCRIPTION;
        return s, true;
      }
      s, ok := PullOutBelow(sub);
    }

    method PullOutBelow(sub: Subscription) returns (s: Subscription, ok: bool)
      requires Valid() && !PathOf(sub).DevicesPath?
      modifies Repr
      ensures Valid() && Repr == old(Repr)
      ensures var slot := AccountSlot(old(View()), PathOf(sub));
              && ok == (slot.Some? && slot.value.id == sub.id)
              && s == (if ok then slot.value else NO_SUBSCRIPTION)
      ensures View() == if ok then AccountPut(old(View()), PathOf(sub), None) else old(View())
    {
      hide LinkedAccountData.Valid, LinkedAccountData.View, DeviceData.Valid, DeviceData.View, DeviceSlot, DevicePut;
      DeviceShape(sub.deviceID);
      if sub.deviceID !in devices {
        return NO_SUBSCRIPTION, false;
      }
      label Before:
      s, ok := devices[sub.deviceID].PullOut(sub);
      DeviceChanged@Before(sub.deviceID);
      ghost var view := old(View());
      assert view.(devices := view.devices[sub.deviceID := view.devices[sub.deviceID]]) == view;
    }

    method DumpTasks(cloud: LinkedCloud) returns (out: seq<Task>)
      requires Valid()
      ensures forall t :: t in out <==> t in AccountTasks(View(), cloud)
      ensures NoDuplicates(out)
    {
      hide LinkedAccountData.Valid, LinkedAccountData.View, AccountTasks, DeviceTasks, Gathered, Separate;
      out := [];
      ghost var view := View();
      ViewShape();
      var pullDevices := NeedPullDevices(cloud.supportedEvents);
      if !pullDevices {
        if !isSubscribed {
          out := out + [Task(SubscribeToDevices, cloud, linkedAccount, "", "")];
        }
      }
      var pullDevice := NeedPullDevice(cloud.supportedEvents);
      var pullResources := NeedPullResources(cloud.supportedEvents);
      ghost var first := out;
      if pullDevice && pullResources {
        AccountTasksGathered(view, cloud, first, out);
        return;
      }
      ghost var parts := DeviceParts(view, cloud);
      DevicePartsSeparate(view, cloud, first);
      GatherNone(first, parts);
      var ids := devices.Keys;
      assert ids == parts.Keys;
      while ids != {}
        invariant ids <= parts.Keys
        invariant Gathered(out, first, parts, ids)
      {
        var deviceID :| deviceID in ids;
        var v := DumpDeviceTasks(cloud, deviceID);
        GatherOne(out, first, parts, ids, deviceID, v);
        out := out + v;
        ids := ids - {deviceID};
      }
      GatheredOnce(out, first, parts);
      AccountTasksGathered(view, cloud, first, out);
    }

    method DumpDeviceTasks(cloud: LinkedCloud, deviceID: string) returns (out: seq<Task>)
      requires Valid() && deviceID in devices
      ensures forall t :: t in out <==> t in DeviceParts(View(), cloud)[deviceID]
      ensures NoDuplicates(out)
    {
      out := devices[deviceID].DumpTasks(cloud, linkedAccount, deviceID);
    }

    lemma ViewShape()
      requires Valid()
      ensures View().account == linkedAccount && View().devices.Keys == devices.Keys
      ensures View().slot == if isSubscribed then Some(subscription) else None
    {
    }

    lemma Shape()
      requires Valid()
      ensures View().account == linkedAccount
    {
    }

    // A change of slots leaves the account record alone.
    static lemma PutKeepsAccount(a: AccountTree, p: Path, v: Option<Subscription>)
      ensures AccountPut(a, p, v).account == a.account
    {
    }

    twostate lemma AccountKept()
      requires old(Valid()) && Valid() && View().account == old(View()).account
      ensures linkedAccount == old(linkedAccount)
    {
    }

    lemma DeviceShape(deviceID: string)
      requires Valid()
      ensures deviceID in View().devices <==> deviceID in devices
      ensures deviceID in devices ==>
                && devices[deviceID].Valid() && devices[deviceID].Repr <= Repr - {this}
                && View().devices[deviceID] == devices[deviceID].View()
    {
    }

    method SetLinkedAccount(l: LinkedAccount)
      requires Valid()
      modifies this
      ensures Valid() && Repr == old(Repr)
      ensures View() == old(View()).(account := l)
    {
      hide DeviceData.Valid, DeviceData.View;
      linkedAccount := l;
    }

    method PullOutResource(deviceID: string, href: string) returns (resource: ResourceData?)
      requires Valid() && deviceID in devices
      modifies Repr
      ensures Valid() && Repr == old(Repr)
      ensures resource == if href in old(devices[deviceID].resources) then old(devices[deviceID].resources[href]) else null
      ensures (resource != null) == (href in old(View()).devices[deviceID].resources)
      ensures resource != null ==> resource.View() == old(View()).devices[deviceID].resources[href]
      ensures View() == if resource == null then old(View()) else WithoutResource(old(View()), deviceID, href)
    {
      hide LinkedAccountData.Valid, LinkedAccountData.View, DeviceData.Valid, DeviceData.View;
      ViewShape();
      DeviceShape(deviceID);
      var device := devices[deviceID];
      device.ResourceShape(href);
      label Before:
      resource := device.PullOutResource(href);
      DeviceChanged@Before(deviceID);
      var view := old(View());
      assert view.(devices := view.devices[deviceID := view.devices[deviceID]]) == view;
    }

    // One device was taken out, nothing else changed.
    twostate predicate TakenOut(id: string)
      reads this
    {
      && id in old(devices) && devices == old(devices) - {id} && Repr == old(Repr)
      && linkedAccount == old(linkedAccount) && isSubscribed == old(isSubscribed) && subscription == old(subscription)
    }

    twostate lemma AllKept()
      requires old(Valid())
      requires forall o | o in old(Repr) && o != this :: unchanged(o)
      ensures forall d :: d in old(devices) ==>
                && old(devices[d]) in old(Repr) && old(devices[d]).Valid() && old(devices[d]).View() == old(devices[d].View())
                && old(devices[d]).Repr == old(devices[d].Repr) && old(devices[d]).Repr <= old(Repr) - {this}
    {
      hide DeviceData.Valid, DeviceData.View;
    }

    twostate lemma ValidWithout(id: string)
      requires old(Valid()) && TakenOut(id)
      requires forall o | o in old(Repr) && o != this :: unchanged(o)
      ensures Valid()
    {
      hide DeviceData.Valid, DeviceData.View, LinkedAccountData.View;
      AllKept();
      forall d, e | d in devices && e in devices && d != e ensures devices[d].Repr !! devices[e].Repr {
        assert old(devices[d].Repr) !! old(devices[e].Repr);
      }
    }

    twostate lemma ViewWithout(id: string)
      requires old(Valid()) && Valid() && TakenOut(id)
      requires forall d :: d in devices ==> devices[d].Valid() && devices[d].View() == old(devices[d].View())
      ensures View() == WithoutDevice(old(View()), id)
    {
      hide DeviceData.Valid, DeviceData.View, LinkedAccountData.Valid;
    }

    twostate lemma DeviceRemoved(id: string)
      requires old(Valid()) && TakenOut(id)
      requires forall o | o in old(Repr) && o != this :: unchanged(o)
      ensures Valid()
      ensures View() == WithoutDevice(old(View()), id)
      ensures old(devices[id]).Valid() && old(devices[id]).Repr <= Repr - {this} && old(devices[id]).View() == old(devices[id].View())
    {
      hide DeviceData.Valid, DeviceData.View, LinkedAccountData.Valid, LinkedAccountData.View;
      AllKept();
      ValidWithout(id);
      ViewWithout(id);
    }

    method PullOutDevice(deviceID: string) returns (device: DeviceData?)
      requires Valid()
      modifies this
      ensures Valid() && Repr == old(Repr)
      ensures device == null ==> unchanged(this)
      ensures device == if deviceID in old(devices) then old(devices[deviceID]) else null
      ensures device != null ==> device.Valid() && device.Repr <= Repr - {this} && device.View() == old(device.View())
      ensures View() == WithoutDevice(old(View()), deviceID)
    {
      hide LinkedAccountData.Valid, LinkedAccountData.View, DeviceData.Valid, DeviceData.View;
      if deviceID !in devices {
        NothingWithout(deviceID);
        return null;
      }
      device := devices[deviceID];
      devices := devices - {deviceID};
      DeviceRemoved(deviceID);
    }

    lemma NothingWithout(deviceID: string)
      requires Valid() && deviceID !in devices
      ensures WithoutDevice(View(), deviceID) == View()
    {
      ViewShape();
      assert View().devices - {deviceID} == View().devices;
    }
  }

  class CloudData {
    var linkedAccounts: map<string, LinkedAccountData>
    var linkedCloud: LinkedCloud
    ghost var Repr: set<object>

    // Includes that the accounts are filed under their own IDs, in their own cloud.
    ghost predicate Valid()
      reads this, Repr
      ensures Valid() ==> this in Repr
    {
      && this in Repr
      && (forall a :: a in linkedAccounts ==>
            && linkedAccounts[a] in Repr && linkedAccounts[a].Repr <= Repr && this !in linkedAccounts[a].Repr
            && linkedAccounts[a].Valid()
            && linkedAccounts[a].linkedAccount.id == a && linkedAccounts[a].linkedAccount.linkedCloudID == linkedCloud.id)
      && (forall a, b :: a in linkedAccounts && b in linkedAccounts && a != b ==>
            linkedAccounts[a].Repr !! linkedAccounts[b].Repr)
    }

    ghost function View(): CloudTree
      requires Valid()
      reads this, Repr
    {
      CloudTree(linkedCloud, map a | a in linkedAccounts :: linkedAccounts[a].View())
    }

    constructor (linkedCloud: LinkedCloud)
      ensures Valid() && fresh(Repr)
      ensures View() == CloudTree(linkedCloud, map[])
    {
      this.linkedCloud := linkedCloud;
      linkedAccounts := map[];
      Repr := {this};
    }

    lemma ViewShape()
      requires Valid()
      ensures View().cloud == linkedCloud && View().accounts.Keys == linkedAccounts.Keys
      ensures forall a :: a in linkedAccounts ==> View().accounts[a].account.id == a
    {
    }

    method DumpTasks() returns (out: seq<Task>)
      requires Valid()
      ensures forall t :: t in out <==> t in CloudTasks(View())
      ensures NoDuplicates(out)
    {
      hide CloudData.Valid, CloudData.View, CloudTasks, AccountTasks, AccountParts, PullsDevice, PullsDevices, PullsResources, Gathered;
      out := [];
      ViewShape();
      var pullDevices := NeedPullDevices(linkedCloud.supportedEvents);
      var pullDevice := NeedPullDevice(linkedCloud.supportedEvents);
      var pullResources := NeedPullResources(linkedCloud.supportedEvents);
      if pullDevices && pullDevice && pullResources {
        CloudTasksGathered(View(), out);
        return;
      }
      out := DumpAllAccounts();
      CloudTasksGathered(View(), out);
    }

    // The loop over the accounts.
    method DumpAllAccounts() returns (out: seq<Task>)
      requires Valid()
      ensures Gathered(out, [], AccountParts(View()), {})
      ensures NoDuplicates(out)
    {
      hide CloudData.Valid, CloudData.View, AccountTasks, Gathered, Separate;
      out := [];
      ghost var parts := AccountParts(View());
      ViewShape();
      AccountPartsSeparate(View());
      GatherNone([], parts);
      var ids := linkedAccounts.Keys;
      assert ids == parts.Keys;
      while ids != {}
        invariant ids <= parts.Keys
        invariant Gathered(out, [], parts, ids)
      {
        var id :| id in ids;
        var v := DumpAccountTasks(id);
        GatherOne(out, [], parts, ids, id, v);
        out := out + v;
        ids := ids - {id};
      }
      GatheredOnce(out, [], parts);
    }

    method DumpAccountTasks(id: string) returns (out: seq<Task>)
      requires Valid() && id in linkedAccounts
      ensures forall t :: t in out <==> t in AccountParts(View())[id]
      ensures NoDuplicates(out)
    {
      out := linkedAccounts[id].DumpTasks(linkedCloud);
    }

    lemma Shape()
      requires Valid()
      ensures View().cloud == linkedCloud
    {
    }

    method LoadOrStoreLinkedAccount(l: LinkedAccount) returns (account: LinkedAccountData, loaded: bool)
      requires Valid() && l.linkedCloudID == linkedCloud.id
      modifies this
      ensures Valid() && fresh(Repr - old(Repr)) && old(Repr) <= Repr
      ensures loaded == (l.id in old(View()).accounts)
      ensures l.id in linkedAccounts && linkedAccounts[l.id] == account
      ensures View() == if loaded then old(View())
                        else old(View()).(accounts := old(View()).accounts[l.id := AccountTree(l, None, map[])])
    {
      hide CloudData.Valid, CloudData.View, LinkedAccountData.Valid, LinkedAccountData.View;
      ViewShape();
      if l.id in linkedAccounts {
        return linkedAccounts[l.id], true;
      }
      account := new LinkedAccountData(l);
      AccountFresh(account, l);
      linkedAccounts := linkedAccounts[l.id := account];
      Repr := Repr + account.Repr;
      AccountAdded(l.id);
      loaded := false;
    }

    lemma AccountShape(id: string)
      requires Valid()
      ensures id in View().accounts <==> id in linkedAccounts
      ensures id in linkedAccounts ==>
                && linkedAccounts[id].Valid() && linkedAccounts[id].Repr <= Repr - {this}
                && View().accounts[id] == linkedAccounts[id].View()
    {
    }

    lemma AccountFresh(account: LinkedAccountData, l: LinkedAccount)
      requires account.Valid() && account.View() == AccountTree(l, None, map[])
      ensures account.linkedAccount == l
    {
    }

    method PullOutLinkedAccount(id: string) returns (account: LinkedAccountData?)
      requires Valid()
      modifies this
      ensures Valid() && Repr == old(Repr)
      ensures account == null ==> unchanged(this)
      ensures account == if id in old(linkedAccounts) then old(linkedAccounts[id]) else null
      ensures account != null ==> account.Valid() && account.Repr <= Repr - {this} && account.View() == old(account.View())
      ensures View() == old(View()).(accounts := old(View()).accounts - {id})
    {
      hide LinkedAccountData.Valid, LinkedAccountData.View;
      if id !in linkedAccounts {
        return null;
      }
      account := linkedAccounts[id];
      linkedAccounts := linkedAccounts - {id};
    }

    // Accounts whose objects did not change are what they were.
    twostate lemma AccountKept(a: string)
      requires old(Valid()) && a in old(linkedAccounts) && a in linkedAccounts && linkedAccounts[a] == old(linkedAccounts[a])
      requires forall o | o in old(linkedAccounts[a].Repr) :: unchanged(o)
      ensures linkedAccounts[a].Valid() && linkedAccounts[a].View() == old(linkedAccounts[a].View())
      ensures linkedAccounts[a].Repr == old(linkedAccounts[a].Repr) <= old(Repr) - {this}
      ensures linkedAccounts[a].linkedAccount == old(linkedAccounts[a].linkedAccount)
    {
      hide LinkedAccountData.Valid, LinkedAccountData.View;
    }

    // One account was added, nothing else changed.
    twostate predicate Added(id: string)
      reads this, linkedAccounts.Values
    {
      && id !in old(linkedAccounts) && id in linkedAccounts
      && linkedAccounts == old(linkedAccounts)[id := linkedAccounts[id]] && linkedCloud == old(linkedCloud)
      && Repr == old(Repr) + linkedAccounts[id].Repr
    }

    twostate lemma OthersKept(id: string)
      requires old(Valid()) && Added(id) && fresh(linkedAccounts[id].Repr)
      requires forall o | o in old(Repr) && o != this :: unchanged(o)
      ensures forall a :: a in old(linkedAccounts) ==>
                && linkedAccounts[a] in old(Repr) && linkedAccounts[a].Repr <= old(Repr) && this !in linkedAccounts[a].Repr
                && linkedAccounts[a].Valid() && linkedAccounts[a].View() == old(linkedAccounts[a].View())
                && linkedAccounts[a].Repr == old(linkedAccounts[a].Repr)
                && linkedAccounts[a].linkedAccount == old(linkedAccounts[a].linkedAccount)
                && linkedAccounts[a].linkedAccount.id == a && linkedAccounts[a].linkedAccount.linkedCloudID == linkedCloud.id
                && linkedAccounts[a].Repr !! linkedAccounts[id].Repr
    {
      hide LinkedAccountData.Valid, LinkedAccountData.View;
      forall a | a in old(linkedAccounts)
        ensures linkedAccounts[a].Valid() && linkedAccounts[a].View() == old(linkedAccounts[a].View())
        ensures linkedAccounts[a].Repr == old(linkedAccounts[a].Repr) <= old(Repr) && this !in linkedAccounts[a].Repr
        ensures linkedAccounts[a].linkedAccount == old(linkedAccounts[a].linkedAccount)
      {
        AccountKept(a);
      }
    }

    twostate lemma ValidWhenAdded(id: string)
      requires old(Valid()) && Added(id)
      requires linkedAccounts[id].Valid() && fresh(linkedAccounts[id].Repr)
      requires linkedAccounts[id].linkedAccount.id == id && linkedAccounts[id].linkedAccount.linkedCloudID == linkedCloud.id
      requires forall o | o in old(Repr) && o != this :: unchanged(o)
      ensures Valid()
    {
      hide LinkedAccountData.Valid, LinkedAccountData.View, CloudData.View;
      OthersKept(id);
      forall a, b | a in linkedAccounts && b in linkedAccounts && a != b ensures linkedAccounts[a].Repr !! linkedAccounts[b].Repr {
        if a != id && b != id {
          assert old(linkedAccounts[a].Repr) !! old(linkedAccounts[b].Repr);
        }
      }
    }

    twostate lemma ViewWhenAdded(id: string)
      requires old(Valid()) && Valid() && Added(id) && linkedAccounts[id].Valid()
      requires forall a :: a in old(linkedAccounts) ==> linkedAccounts[a].Valid() && linkedAccounts[a].View() == old(linkedAccounts[a].View())
      ensures View() == old(View()).(accounts := old(View()).accounts[id := linkedAccounts[id].View()])
    {
      hide LinkedAccountData.Valid, LinkedAccountData.View, CloudData.Valid;
    }

    twostate lemma AccountAdded(id: string)
      requires old(Valid()) && Added(id)
      requires linkedAccounts[id].Valid() && fresh(linkedAccounts[id].Repr)
      requires linkedAccounts[id].linkedAccount.id == id && linkedAccounts[id].linkedAccount.linkedCloudID == linkedCloud.id
      requires forall o | o in old(Repr) && o != this :: unchanged(o)
      ensures Valid()
      ensures View() == old(View()).(accounts := old(View()).accounts[id := linkedAccounts[id].View()])
    {
      hide LinkedAccountData.Valid, LinkedAccountData.View, CloudData.Valid, CloudData.View;
      ValidWhenAdded(id);
      OthersKept(id);
      ViewWhenAdded(id);
    }

    // One account changed in place, nothing else did.
    twostate lemma AccountChanged(id: string)
      requires old(Valid()) && id in old(linkedAccounts)
      requires linkedAccounts == old(linkedAccounts) && linkedCloud == old(linkedCloud)
      requires linkedAccounts[id].Valid() && fresh(linkedAccounts[id].Repr - old(linkedAccounts[id].Repr))
      requires linkedAccounts[id].linkedAccount.id == id && linkedAccounts[id].linkedAccount.linkedCloudID == linkedCloud.id
      requires Repr == old(Repr) + linkedAccounts[id].Repr
      requires forall o | o in old(Repr) && o !in old(linkedAccounts[id].Repr) && o != this :: unchanged(o)
      ensures Valid()
      ensures View() == old(View()).(accounts := old(View()).accounts[id := linkedAccounts[id].View()])
    {
      hide LinkedAccountData.Valid, LinkedAccountData.View;
      forall a | a in linkedAccounts && a != id
        ensures linkedAccounts[a].Valid() && linkedAccounts[a].View() == old(linkedAccounts[a].View())
        ensures linkedAccounts[a].Repr == old(linkedAccounts[a].Repr)
        ensures linkedAccounts[a].linkedAccount == old(linkedAccounts[a].linkedAccount)
      {
        assert old(linkedAccounts[a].Repr) !! old(linkedAccounts[id].Repr);
      }
    }
  }

  class Cache {
    var clouds: map<string, CloudData>
    var subscriptionsByID: map<string, Subscription>
    ghost var Repr: set<object>  // the objects of the tree, without the cache itself

    ghost predicate Valid()
      reads `clouds, `Repr, Repr
      ensures Valid() ==> this !in Repr
    {
      && this !in Repr
      && (forall c :: c in clouds ==>
            && clouds[c] in Repr && clouds[c].Repr <= Repr
            && clouds[c].Valid()
            && clouds[c].linkedCloud.id == c)
      && (forall c, d :: c in clouds && d in clouds && c != d ==> clouds[c].Repr !! clouds[d].Repr)
    }

    ghost function View(): Tree
      requires Valid()
      reads `clouds, `Repr, Repr
    {
      map c | c in clouds :: clouds[c].View()
    }

    ghost function State(): CacheState
      requires Valid()
      reads this, Repr
    {
      CacheState(View(), subscriptionsByID)
    }

    constructor ()
      ensures Valid() && fresh(Repr)
      ensures State() == EMPTY_CACHE
    {
      clouds := map[];
      subscriptionsByID := map[];
      Repr := {};
    }

    twostate lemma CloudChanged(id: string)
      requires old(Valid()) && id in old(clouds) && this !in Repr
      requires clouds == old(clouds) && clouds[id].linkedCloud == old(clouds[id].linkedCloud)
      requires clouds[id].Valid() && fresh(clouds[id].Repr - old(clouds[id].Repr))
      requires Repr == old(Repr) + clouds[id].Repr
      requires forall o | o in old(Repr) && o !in old(clouds[id].Repr) :: unchanged(o)
      ensures Valid()
      ensures View() == old(View())[id := clouds[id].View()]
    {
      hide CloudData.Valid, CloudData.View;
      forall c | c in clouds && c != id
        ensures clouds[c].Valid() && clouds[c].View() == old(clouds[c].View())
        ensures clouds[c].Repr == old(clouds[c].Repr) && clouds[c].linkedCloud == old(clouds[c].linkedCloud)
      {
        assert old(clouds[c].Repr) !! old(clouds[id].Repr);
      }
    }

    // One cloud was added, nothing else changed.
    twostate predicate Added(id: string)
      reads this, clouds.Values
    {
      && id !in old(clouds) && id in clouds && clouds == old(clouds)[id := clouds[id]]
      && clouds[id].linkedCloud.id == id && Repr == old(Repr) + clouds[id].Repr
    }

    twostate lemma OthersKept(id: string)
      requires old(Valid()) && Added(id) && fresh(clouds[id].Repr)
      requires forall o | o in old(Repr) :: unchanged(o)
      ensures forall c :: c in old(clouds) ==>
                && clouds[c] in old(Repr) && clouds[c].Repr <= old(Repr)
                && clouds[c].Valid() && clouds[c].View() == old(clouds[c].View())
                && clouds[c].Repr == old(clouds[c].Repr) && clouds[c].linkedCloud.id == c && clouds[c].Repr !! clouds[id].Repr
    {
      hide CloudData.Valid, CloudData.View;
    }

    twostate lemma ValidWhenAdded(id: string)
      requires old(Valid()) && this !in Repr && Added(id) && clouds[id].Valid() && fresh(clouds[id].Repr)
      requires forall o | o in old(Repr) :: unchanged(o)
      ensures Valid()
    {
      hide CloudData.Valid, CloudData.View, Cache.View;
      OthersKept(id);
      forall c, d | c in clouds && d in clouds && c != d ensures clouds[c].Repr !! clouds[d].Repr {
        if c != id && d != id {
          assert old(clouds[c].Repr) !! old(clouds[d].Repr);
        }
      }
    }

    twostate lemma ViewWhenAdded(id: string)
      requires old(Valid()) && Valid() && Added(id) && clouds[id].Valid()
      requires forall c :: c in old(clouds) ==> clouds[c].Valid() && clouds[c].View() == old(clouds[c].View())
      ensures View() == old(View())[id := clouds[id].View()]
    {
      hide CloudData.Valid, CloudData.View, Cache.Valid;
    }

    twostate lemma CloudAdded(id: string)
      requires old(Valid()) && this !in Repr && Added(id) && clouds[id].Valid() && fresh(clouds[id].Repr)
      requires forall o | o in old(Repr) :: unchanged(o)
      ensures Valid()
      ensures View() == old(View())[id := clouds[id].View()]
    {
      hide CloudData.Valid, CloudData.View, Cache.Valid, Cache.View;
      ValidWhenAdded(id);
      OthersKept(id);
      ViewWhenAdded(id);
    }

    // One account changed in place: the one `p` leads to.
    twostate lemma AccountChanged(p: Path)
      requires old(Valid()) && HasAccount(old(View()), p.cloud, p.account) && this !in Repr
      requires clouds == old(clouds)
      requires clouds[p.cloud].linkedCloud == old(clouds[p.cloud].linkedCloud) && clouds[p.cloud].linkedAccounts == old(clouds[p.cloud].linkedAccounts)
      requires var acc := clouds[p.cloud].linkedAccounts[p.account];
               && acc.Valid() && fresh(acc.Repr - old(acc.Repr))
               && acc.linkedAccount.id == p.account && acc.linkedAccount.linkedCloudID == p.cloud
               && clouds[p.cloud].Repr == old(clouds[p.cloud].Repr) + acc.Repr
               && Repr == old(Repr) + clouds[p.cloud].Repr
      requires forall o | o in old(Repr) && o !in old(clouds[p.cloud].linkedAccounts[p.account].Repr) && o != clouds[p.cloud] :: unchanged(o)
      ensures Valid()
      ensures View() == WithAccount(old(View()), p.cloud, p.account, clouds[p.cloud].linkedAccounts[p.account].View())
    {
      hide LinkedAccountData.Valid, LinkedAccountData.View;
      clouds[p.cloud].AccountChanged(p.account);
      CloudChanged(p.cloud);
    }

    lemma AccountShape(c: string, a: string)
      requires Valid()
      ensures HasAccount(View(), c, a) <==> c in clouds && a in clouds[c].linkedAccounts
      ensures HasAccount(View(), c, a) ==>
                && View()[c].cloud == clouds[c].linkedCloud
                && clouds[c].linkedAccounts[a].Valid()
                && clouds[c].linkedAccounts[a].Repr <= clouds[c].Repr <= Repr
                && clouds[c] in Repr - clouds[c].linkedAccounts[a].Repr
                && View()[c].accounts[a] == clouds[c].linkedAccounts[a].View()
                && View()[c].accounts[a].account == clouds[c].linkedAccounts[a].linkedAccount
                && clouds[c].linkedAccounts[a].linkedAccount.id == a
                && clouds[c].linkedAccounts[a].linkedAccount.linkedCloudID == c
    {
    }

    method LoadLinkedAccount(linkedCloudID: string, linkedAccountID: string) returns (cloud: CloudData?, account: LinkedAccountData?)
      requires Valid()
      ensures (cloud != null) == (account != null) == HasAccount(View(), linkedCloudID, linkedAccountID)
      ensures cloud != null ==>
                && linkedCloudID in clouds && cloud == clouds[linkedCloudID]
                && linkedAccountID in cloud.linkedAccounts && account == cloud.linkedAccounts[linkedAccountID]
    {
      AccountShape(linkedCloudID, linkedAccountID);
      if linkedCloudID !in clouds {
        return null, null;
      }
      if linkedAccountID !in clouds[linkedCloudID].linkedAccounts {
        return null, null;
      }
      return clouds[linkedCloudID], clouds[linkedCloudID].linkedAccounts[linkedAccountID];
    }

    method LoadSubscription(id: string) returns (data: SubscriptionData, ok: bool)
      requires Valid()
      modifies `subscriptionsByID
      ensures Valid()
      ensures (State(), data, ok) == CacheTree.LoadSubscription(old(State()), id)
    {
      if id !in subscriptionsByID {
        return NO_DATA, false;
      }
      hide Cache.Valid, Cache.View, CloudData.Valid, LinkedAccountData.Valid, HasAccount;
      var sub := subscriptionsByID[id];
      var cloud, account := LoadLinkedAccount(sub.linkedCloudID, sub.linkedAccountID);
      if cloud == null {
        subscriptionsByID := subscriptionsByID - {sub.id};
        return NO_DATA, true;
      }
      AccountShape(sub.linkedCloudID, sub.linkedAccountID);
      return SubscriptionData(account.linkedAccount, cloud.linkedCloud, sub), true;
    }

    method LoadOrCreateSubscription(sub: Subscription) returns (r: Stored)
      requires Valid()
      modifies this, Repr
      ensures Valid() && fresh(Repr - old(Repr))
      ensures (State(), r) == CacheTree.LoadOrCreateSubscription(old(State()), sub)
    {
      hide Cache.Valid, Cache.View, CloudData.Valid, LinkedAccountData.Valid, SlotAt, Put, HasAccount;
      var data, ok := LoadSubscription(sub.id);
      if ok {
        return Stored(data, true);
      }
      var cloud, account := LoadLinkedAccount(sub.linkedCloudID, sub.linkedAccountID);
      if cloud == null {
        return AccountNotFound;
      }
      var s, loaded := LoadOrCreateIn(cloud, account, sub);
      if !loaded {
        subscriptionsByID := subscriptionsByID[sub.id := sub];
      }
      AccountShape(sub.linkedCloudID, sub.linkedAccountID);
      return Stored(SubscriptionData(account.linkedAccount, cloud.linkedCloud, s), loaded);
    }

    // The account's own LoadOrCreate, seen from the root of the tree.
    method LoadOrCreateIn(cloud: CloudData, account: LinkedAccountData, sub: Subscription) returns (s: Subscription, loaded: bool)
      requires Valid() && HasAccount(View(), sub.linkedCloudID, sub.linkedAccountID)
      requires sub.linkedCloudID in clouds && cloud == clouds[sub.linkedCloudID]
      requires sub.linkedAccountID in cloud.linkedAccounts && account == cloud.linkedAccounts[sub.linkedAccountID]
      modifies `Repr, Repr
      ensures Valid() && fresh(Repr - old(Repr))
      ensures clouds[sub.linkedCloudID] == cloud && sub.linkedAccountID in cloud.linkedAccounts
      ensures cloud.linkedAccounts[sub.linkedAccountID] == account
      ensures account.linkedAccount == old(account.linkedAccount) && cloud.linkedCloud == old(cloud.linkedCloud)
      ensures loaded == SlotAt(old(View()), PathOf(sub)).Some?
      ensures s == if loaded then SlotAt(old(View()), PathOf(sub)).value else sub
      ensures View() == if loaded then old(View()) else Put(old(View()), PathOf(sub), Some(sub))
      ensures HasAccount(View(), sub.linkedCloudID, sub.linkedAccountID)
      ensures DataAt(View(), sub.linkedCloudID, sub.linkedAccountID, s) == DataAt(old(View()), sub.linkedCloudID, sub.linkedAccountID, s)
    {
      hide Cache.Valid, Cache.View, CloudData.Valid, CloudData.View, LinkedAccountData.Valid, LinkedAccountData.View, AccountSlot, AccountPut;
      AccountShape(sub.linkedCloudID, sub.linkedAccountID);
      label Before:
      s, loaded := account.LoadOrCreate(sub);
      LinkedAccountData.PutKeepsAccount(old(account.View()), PathOf(sub), Some(sub));
      account.AccountKept@Before();
      cloud.Repr := cloud.Repr + account.Repr;
      Repr := Repr + cloud.Repr;
      AccountChanged@Before(DevicesPath(sub.linkedCloudID, sub.linkedAccountID));
      WithSameAccount(old(View()), sub.linkedCloudID, sub.linkedAccountID);
      AccountShape(sub.linkedCloudID, sub.linkedAccountID);
    }

    static lemma WithSameAccount(t: Tree, c: string, a: string)
      requires HasAccount(t, c, a)
      ensures WithAccount(t, c, a, t[c].accounts[a]) == t
    {
      assert t[c].(accounts := t[c].accounts[a := t[c].accounts[a]]) == t[c];
    }

    method PullOutSubscription(id: string) returns (data: SubscriptionData, ok: bool)
      requires Valid()
      modifies this, Repr
      ensures Valid() && fresh(Repr - old(Repr))
      ensures (State(), data, ok) == CacheTree.PullOutSubscription(old(State()), id)
    {
      hide Cache.Valid, Cache.View, CloudData.Valid, LinkedAccountData.Valid, SlotAt, Put, HasAccount;
      if id !in subscriptionsByID {
        return NO_DATA, false;
      }
      var sub := subscriptionsByID[id];
      subscriptionsByID := subscriptionsByID - {id};
      var cloud, account := LoadLinkedAccount(sub.linkedCloudID, sub.linkedAccountID);
      if cloud == null {
        return NO_DATA, false;
      }
      var s;
      s, ok := PullOutIn(cloud, account, sub);
      if !ok {
        return NO_DATA, ok;
      }
      AccountShape(sub.linkedCloudID, sub.linkedAccountID);
      return SubscriptionData(account.linkedAccount, cloud.linkedCloud, s), true;
    }

    // The account's own PullOut, seen from the root of the tree.
    method PullOutIn(cloud: CloudData, account: LinkedAccountData, sub: Subscription) returns (s: Subscription, ok: bool)
      requires Valid() && HasAccount(View(), sub.linkedCloudID, sub.linkedAccountID)
      requires sub.linkedCloudID in clouds && cloud == clouds[sub.linkedCloudID]
      requires sub.linkedAccountID in cloud.linkedAccounts && account == cloud.linkedAccounts[sub.linkedAccountID]
      modifies `Repr, Repr
      ensures Valid() && fresh(Repr - old(Repr))
      ensures clouds[sub.linkedCloudID] == cloud && sub.linkedAccountID in cloud.linkedAccounts
      ensures cloud.linkedAccounts[sub.linkedAccountID] == account
      ensures account.linkedAccount == old(account.linkedAccount) && cloud.linkedCloud == old(cloud.linkedCloud)
      ensures var slot := SlotAt(old(View()), PathOf(sub));
              && ok == (slot.Some? && slot.value.id == sub.id)
              && s == (if ok then slot.value else NO_SUBSCRIPTION)
      ensures View() == if ok then Put(old(View()), PathOf(sub), None) else old(View())
      ensures HasAccount(View(), sub.linkedCloudID, sub.linkedAccountID)
      ensures DataAt(View(), sub.linkedCloudID, sub.linkedAccountID, s) == DataAt(old(View()), sub.linkedCloudID, sub.linkedAccountID, s)
    {
      hide Cache.Valid, Cache.View, CloudData.Valid, CloudData.View, LinkedAccountData.Valid, LinkedAccountData.View, AccountSlot, AccountPut;
      AccountShape(sub.linkedCloudID, sub.linkedAccountID);
      label Before:
      s, ok := account.PullOut(sub);
      LinkedAccountData.PutKeepsAccount(old(account.View()), PathOf(sub), None);
      account.AccountKept@Before();
      cloud.Repr := cloud.Repr + account.Repr;
      Repr := Repr + cloud.Repr;
      AccountChanged@Before(DevicesPath(sub.linkedCloudID, sub.linkedAccountID));
      WithSameAccount(old(View()), sub.linkedCloudID, sub.linkedAccountID);
      AccountShape(sub.linkedCloudID, sub.linkedAccountID);
    }

    method LoadOrCreateCloud(cloud: LinkedCloud) returns (c: LinkedCloud, loaded: bool)
      requires Valid()
      modifies this, Repr
      ensures Valid() && fresh(Repr - old(Repr))
      ensures (State(), c, loaded) == CacheTree.LoadOrCreateCloud(old(State()), cloud)
    {
      hide Cache.Valid, Cache.View, CloudData.Valid, CloudData.View, LinkedAccountData.Valid, LinkedAccountData.View;
      CloudShape();
      loaded := cloud.id in clouds;
      if !loaded {
        var data := new CloudData(cloud);
        data.Shape();
        clouds := clouds[cloud.id := data];
        Repr := Repr + data.Repr;
        CloudAdded(cloud.id);
      }
      c := clouds[cloud.id].linkedCloud;
    }

    lemma CloudKeys()
      requires Valid()
      ensures View().Keys == clouds.Keys && forall c :: c in View() ==> View()[c].cloud.id == c
    {
    }

    lemma CloudShape()
      requires Valid()
      ensures View().Keys == clouds.Keys
      ensures forall c :: c in clouds ==>
                && View()[c] == clouds[c].View() && View()[c].cloud == clouds[c].linkedCloud
                && clouds[c] in Repr && clouds[c].Repr <= Repr && clouds[c].Valid() && clouds[c].linkedCloud.id == c
    {
    }

    // Reading a cloud that is not there crashes the original.
    method LoadCloud(cloudID: string) returns (cloud: LinkedCloud, ok: bool)
      requires Valid() && cloudID in View()
      ensures ok && cloud == View()[cloudID].cloud
    {
      return clouds[cloudID].linkedCloud, true;
    }

    method LoadOrCreateLinkedAccount(l: LinkedAccount) returns (account: LinkedAccount, loaded: bool, found: bool)
      requires Valid()
      modifies this, Repr
      ensures Valid() && fresh(Repr - old(Repr))
      ensures (State(), account, loaded, found) == CacheTree.LoadOrCreateLinkedAccount(old(State()), l)
    {
      hide Cache.Valid, Cache.View, CloudData.Valid, CloudData.View, LinkedAccountData.Valid, LinkedAccountData.View;
      CloudShape();
      AccountShape(l.linkedCloudID, l.id);
      if l.linkedCloudID !in clouds {
        return NO_ACCOUNT, false, false;
      }
      var cloud := clouds[l.linkedCloudID];
      label Before:
      var data;
      data, loaded := cloud.LoadOrStoreLinkedAccount(l);
      cloud.Shape();
      Repr := Repr + cloud.Repr;
      CloudChanged@Before(l.linkedCloudID);
      AccountShape(l.linkedCloudID, l.id);
      assert old(View())[l.linkedCloudID := old(View())[l.linkedCloudID]] == old(View());
      assert View() == if loaded then old(View()) else WithAccount(old(View()), l.linkedCloudID, l.id, AccountTree(l, None, map[]));
      return data.linkedAccount, loaded, true;
    }

    method UpdateLinkedAccount(l: LinkedAccount) returns (ok: bool)
      requires Valid()
      modifies this, Repr
      ensures Valid() && fresh(Repr - old(Repr))
      ensures (State(), ok) == CacheTree.UpdateLinkedAccount(old(State()), l)
    {
      hide Cache.Valid, Cache.View, CloudData.Valid, CloudData.View, LinkedAccountData.Valid, LinkedAccountData.View;
      var cloud, account := LoadLinkedAccount(l.linkedCloudID, l.id);
      if cloud == null {
        return false;
      }
      AccountShape(l.linkedCloudID, l.id);
      label Before:
      account.SetLinkedAccount(l);
      account.Shape();
      cloud.Repr := cloud.Repr + account.Repr;
      Repr := Repr + cloud.Repr;
      AccountChanged@Before(DevicesPath(l.linkedCloudID, l.id));
      return true;
    }

    // ---- Removing whole subtrees -----------------------------------------------------------------

    method CleanUpResourceSubscription(resource: ResourceData)
      requires Valid()
      modifies `subscriptionsByID
      ensures subscriptionsByID == old(subscriptionsByID) - SlotIds(resource.View())
    {
      if resource.isSubscribed {
        subscriptionsByID := subscriptionsByID - {resource.subscription.id};
      }
    }

    method CleanUpDeviceSubscriptions(device: DeviceData)
      requires Valid() && device.Valid() && this !in device.Repr
      modifies `subscriptionsByID
      ensures subscriptionsByID == old(subscriptionsByID) - DeviceIds(device.View())
    {
      hide Cache.Valid, DeviceIds, DeviceData.View, DeviceData.Valid;
      ghost var view := device.View();
      device.Shape();
      DeviceIdsParts(view);
      ghost var gone := SlotIds(view.slot);
      if device.isSubscribed {
        subscriptionsByID := subscriptionsByID - {device.subscription.id};
      }
      var hrefs := device.resources.Keys;
      while hrefs != {}
        invariant hrefs <= view.resources.Keys
        invariant subscriptionsByID == old(subscriptionsByID) - gone
        invariant SlotIds(view.slot) <= gone <= DeviceIds(view)
        invariant forall h :: h in view.resources && h !in hrefs ==> SlotIds(view.resources[h]) <= gone
      {
        var href :| href in hrefs;
        device.ResourceShape(href);
        CleanUpResourceSubscription(device.resources[href]);
        gone := gone + SlotIds(view.resources[href]);
        hrefs := hrefs - {href};
      }
      DeviceIdsAll(view, gone);
    }

    method CleanUpLinkedAccountSubscriptions(account: LinkedAccountData)
      requires Valid() && account.Valid() && this !in account.Repr
      modifies `subscriptionsByID
      ensures subscriptionsByID == old(subscriptionsByID) - AccountIds(account.View())
    {
      hide LinkedAccountData.View, LinkedAccountData.Valid, DeviceData.View, DeviceData.Valid, DeviceIds, AccountIds, Cache.Valid;
      ghost var view := account.View();
      account.ViewShape();
      AccountIdsParts(view);
      ghost var gone := SlotIds(view.slot);
      if account.isSubscribed {
        subscriptionsByID := subscriptionsByID - {account.subscription.id};
      }
      var ids := account.devices.Keys;
      while ids != {}
        invariant ids <= view.devices.Keys
        invariant subscriptionsByID == old(subscriptionsByID) - gone
        invariant SlotIds(view.slot) <= gone <= AccountIds(view)
        invariant forall d :: d in view.devices && d !in ids ==> DeviceIds(view.devices[d]) <= gone
      {
        var id :| id in ids;
        account.DeviceShape(id);
        CleanUpDeviceSubscriptions(account.devices[id]);
        gone := gone + DeviceIds(view.devices[id]);
        ids := ids - {id};
      }
      AccountIdsAll(view, gone);
    }

    method CleanUpCloudSubscriptions(cloud: CloudData)
      requires Valid() && cloud.Valid() && this !in cloud.Repr
      modifies `subscriptionsByID
      ensures subscriptionsByID == old(subscriptionsByID) - CloudIds(cloud.View())
    {
      hide CloudData.View, CloudData.Valid, LinkedAccountData.View, LinkedAccountData.Valid, AccountIds, CloudIds, Cache.Valid;
      ghost var view := cloud.View();
      cloud.ViewShape();
      CloudIdsParts(view);
      ghost var gone := {};
      var ids := cloud.linkedAccounts.Keys;
      while ids != {}
        invariant ids <= view.accounts.Keys
        invariant subscriptionsByID == old(subscriptionsByID) - gone
        invariant gone <= CloudIds(view)
        invariant forall a :: a in view.accounts && a !in ids ==> AccountIds(view.accounts[a]) <= gone
      {
        var id :| id in ids;
        cloud.AccountShape(id);
        CleanUpLinkedAccountSubscriptions(cloud.linkedAccounts[id]);
        gone := gone + AccountIds(view.accounts[id]);
        ids := ids - {id};
      }
      CloudIdsAll(view, gone);
    }

    // The objects on a path, if they are there.

    ghost function AccountAt(c: string, a: string): LinkedAccountData?
      requires Valid()
      reads `clouds, `Repr, Repr
    {
      if c in clouds && a in clouds[c].linkedAccounts then clouds[c].linkedAccounts[a] else null
    }

    ghost function DeviceAt(c: string, a: string, d: string): DeviceData?
      requires Valid()
      reads `clouds, `Repr, Repr
    {
      if AccountAt(c, a) != null && d in AccountAt(c, a).devices then AccountAt(c, a).devices[d] else null
    }

    ghost function ResourceAt(c: string, a: string, d: string, h: string): ResourceData?
      requires Valid()
      reads `clouds, `Repr, Repr
    {
      if DeviceAt(c, a, d) != null && h in DeviceAt(c, a, d).resources then DeviceAt(c, a, d).resources[h] else null
    }

    lemma DeviceAtShape(c: string, a: string, d: string)
      requires Valid()
      ensures (DeviceAt(c, a, d) != null) == Present(View(), DeviceScope(c, a, d))
    {
      hide Cache.Valid, Cache.View, CloudData.View, CloudData.Valid, LinkedAccountData.Valid, LinkedAccountData.View;
      AccountShape(c, a);
      if AccountAt(c, a) != null {
        AccountAt(c, a).DeviceShape(d);
      }
    }

    // One cloud was taken out, nothing else changed.
    twostate lemma CloudRemoved(id: string)
      requires old(Valid()) && id in old(clouds)
      requires clouds == old(clouds) - {id} && Repr == old(Repr)
      requires forall o | o in old(Repr) :: unchanged(o)
      ensures Valid()
      ensures View() == old(View()) - {id}
      ensures old(clouds[id]).Valid() && old(clouds[id]).Repr <= Repr && this !in old(clouds[id]).Repr
              && old(clouds[id]).View() == old(View())[id]
    {
      hide CloudData.Valid, CloudData.View;
      forall c | c in old(clouds)
        ensures old(clouds[c]).Valid() && old(clouds[c]).View() == old(clouds[c].View())
        ensures old(clouds[c]).Repr == old(clouds[c].Repr) && old(clouds[c]).linkedCloud == old(clouds[c].linkedCloud)
      {
      }
    }

    method PullOutCloud(cloudID: string) returns (cloud: CloudData?)
      requires Valid()
      modifies this, Repr
      ensures Valid() && Repr == old(Repr)
      ensures cloud == if cloudID in old(clouds) then old(clouds[cloudID]) else null
      ensures (cloud != null) == Present(old(View()), CloudScope(cloudID))
      ensures cloud != null ==> cloud.Valid() && cloud.Repr <= Repr && cloud.View() == old(View())[cloudID]
      ensures State() == PullOut(old(State()), CloudScope(cloudID))
    {
      hide Cache.Valid, Cache.View, CloudData.View, CloudData.Valid, CloudIds;
      CloudShape();
      if cloudID !in clouds {
        return null;
      }
      cloud := clouds[cloudID];
      clouds := clouds - {cloudID};
      CloudRemoved(cloudID);
      CleanUpCloudSubscriptions(cloud);
    }

    method PullOutLinkedAccount(cloudID: string, linkedAccountID: string) returns (account: LinkedAccountData?)
      requires Valid()
      modifies this, Repr
      ensures Valid() && Repr == old(Repr)
      ensures account == old(AccountAt(cloudID, linkedAccountID))
      ensures (account != null) == Present(old(View()), AccountScope(cloudID, linkedAccountID))
      ensures account != null ==>
                account.Valid() && account.Repr <= Repr && account.View() == old(View())[cloudID].accounts[linkedAccountID]
      ensures State() == PullOut(old(State()), AccountScope(cloudID, linkedAccountID))
    {
      hide Cache.Valid, Cache.View, CloudData.View, CloudData.Valid, LinkedAccountData.Valid, LinkedAccountData.View, AccountIds;
      CloudShape();
      AccountShape(cloudID, linkedAccountID);
      if cloudID !in clouds {
        return null;
      }
      var cloud := clouds[cloudID];
      label Before:
      account := cloud.PullOutLinkedAccount(linkedAccountID);
      if account == null {
        return;
      }
      cloud.Shape();
      Repr := Repr + cloud.Repr;
      CloudChanged@Before(cloudID);
      CleanUpLinkedAccountSubscriptions(account);
    }

    method PullOutDevice(cloudID: string, linkedAccountID: string, deviceID: string) returns (device: DeviceData?)
      requires Valid()
      modifies this, Repr
      ensures Valid() && Repr == old(Repr)
      ensures device == old(DeviceAt(cloudID, linkedAccountID, deviceID))
      ensures (device != null) == Present(old(View()), DeviceScope(cloudID, linkedAccountID, deviceID))
      ensures device != null ==> device.Valid() && device.View() == old(View())[cloudID].accounts[linkedAccountID].devices[deviceID]
      ensures State() == PullOut(old(State()), DeviceScope(cloudID, linkedAccountID, deviceID))
    {
      hide Cache.Valid, Cache.View, DeviceData.View, DeviceData.Valid, DeviceIds;
      AccountShape(cloudID, linkedAccountID);
      var cloud, account := LoadLinkedAccount(cloudID, linkedAccountID);
      if cloud == null {
        return null;
      }
      device := PullOutDeviceIn(cloud, account, cloudID, linkedAccountID, deviceID);
      if device == null {
        return;
      }
      CleanUpDeviceSubscriptions(device);
    }

    // The device taken out of its account, seen from the root of the tree.
    method PullOutDeviceIn(cloud: CloudData, account: LinkedAccountData, c: string, a: string, deviceID: string) returns (device: DeviceData?)
      requires Valid() && HasAccount(View(), c, a)
      requires c in clouds && cloud == clouds[c] && a in cloud.linkedAccounts && account == cloud.linkedAccounts[a]
      modifies `Repr, Repr
      ensures Valid() && Repr == old(Repr)
      ensures device == old(DeviceAt(c, a, deviceID))
      ensures (device != null) == (deviceID in old(View())[c].accounts[a].devices)
      ensures device != null ==>
                device.Valid() && this !in device.Repr && device.View() == old(View())[c].accounts[a].devices[deviceID]
      ensures View() == if device == null then old(View()) else WithAccount(old(View()), c, a, WithoutDevice(old(View())[c].accounts[a], deviceID))
    {
      hide Cache.Valid, Cache.View, CloudData.View, CloudData.Valid, LinkedAccountData.Valid, LinkedAccountData.View, DeviceData.View, DeviceData.Valid;
      AccountShape(c, a);
      account.DeviceShape(deviceID);
      label Before:
      device := account.PullOutDevice(deviceID);
      if device == null {
        return;
      }
      account.Shape();
      cloud.Repr := cloud.Repr + account.Repr;
      Repr := Repr + cloud.Repr;
      AccountChanged@Before(DevicesPath(c, a));
      ReprWithout();
    }

    lemma ReprWithout()
      requires Valid()
      ensures this !in Repr
    {
    }

    method LoadDevice(cloudID: string, linkedAccountID: string, deviceID: string)
      returns (cloud: CloudData?, account: LinkedAccountData?, device: DeviceData?)
      requires Valid()
      ensures (cloud != null) == (account != null) == (device != null)
      ensures (device != null) == Present(View(), DeviceScope(cloudID, linkedAccountID, deviceID))
      ensures device != null ==>
                && cloudID in clouds && cloud == clouds[cloudID]
                && linkedAccountID in cloud.linkedAccounts && account == cloud.linkedAccounts[linkedAccountID]
                && deviceID in account.devices && device == account.devices[deviceID]
    {
      cloud, account := LoadLinkedAccount(cloudID, linkedAccountID);
      if cloud == null {
        return null, null, null;
      }
      AccountShape(cloudID, linkedAccountID);
      account.DeviceShape(deviceID);
      if deviceID !in account.devices {
        return null, null, null;
      }
      device := account.devices[deviceID];
    }

    method PullOutResource(cloudID: string, linkedAccountID: string, deviceID: string, href: string) returns (resource: ResourceData?)
      requires Valid()
      modifies this, Repr
      ensures Valid() && Repr == old(Repr)
      ensures resource == old(ResourceAt(cloudID, linkedAccountID, deviceID, href))
      ensures (resource != null) == Present(old(View()), ResourceScope(cloudID, linkedAccountID, deviceID, href))
      ensures resource != null ==> resource.View() == old(View())[cloudID].accounts[linkedAccountID].devices[deviceID].resources[href]
      ensures State() == PullOut(old(State()), ResourceScope(cloudID, linkedAccountID, deviceID, href))
    {
      hide Cache.Valid, Cache.View;
      DeviceAtShape(cloudID, linkedAccountID, deviceID);
      var cloud, account, device := LoadDevice(cloudID, linkedAccountID, deviceID);
      if cloud == null {
        return null;
      }
      resource := PullOutResourceIn(cloud, account, cloudID, linkedAccountID, deviceID, href);
      if resource != null {
        CleanUpResourceSubscription(resource);
      }
    }

    // The resource taken out of its device, seen from the root of the tree.
    method PullOutResourceIn(cloud: CloudData, account: LinkedAccountData, c: string, a: string, deviceID: string, href: string) returns (resource: ResourceData?)
      requires Valid() && Present(View(), DeviceScope(c, a, deviceID))
      requires c in clouds && cloud == clouds[c] && a in cloud.linkedAccounts && account == cloud.linkedAccounts[a] && deviceID in account.devices
      modifies `Repr, Repr
      ensures Valid() && Repr == old(Repr)
      ensures resource == old(ResourceAt(c, a, deviceID, href))
      ensures (resource != null) == (href in old(View())[c].accounts[a].devices[deviceID].resources)
      ensures resource != null ==> resource.View() == old(View())[c].accounts[a].devices[deviceID].resources[href]
      ensures View() == if resource == null then old(View()) else WithAccount(old(View()), c, a, WithoutResource(old(View())[c].accounts[a], deviceID, href))
    {
      hide Cache.Valid, Cache.View, CloudData.View, CloudData.Valid, LinkedAccountData.Valid, LinkedAccountData.View, DeviceData.View, DeviceData.Valid;
      AccountShape(c, a);
      label Before:
      resource := account.PullOutResource(deviceID, href);
      account.Shape();
      cloud.Repr := cloud.Repr + account.Repr;
      Repr := Repr + cloud.Repr;
      AccountChanged@Before(DevicesPath(c, a));
      WithSameAccount(old(View()), c, a);
    }

    // ---- Tasks ---------------------------------------------------------------------------------------

    method DumpTasks() returns (out: seq<Task>)
      requires Valid()
      ensures forall t :: t in out <==> t in TreeTasks(View())
      ensures NoDuplicates(out)
    {
      hide Cache.Valid, Cache.View, CloudTasks, Gathered, Separate;
      out := [];
      ghost var view := View();
      CloudKeys();
      ghost var parts := CloudParts(view);
      CloudPartsSeparate(view);
      GatherNone([], parts);
      var ids := clouds.Keys;
      assert ids == parts.Keys;
      while ids != {}
        invariant ids <= parts.Keys
        invariant Gathered(out, [], parts, ids)
      {
        var id :| id in ids;
        var v := DumpCloudTasks(id);
        GatherOne(out, [], parts, ids, id, v);
        out := out + v;
        ids := ids - {id};
      }
      GatheredOnce(out, [], parts);
      TreeTasksGathered(view, out);
    }

    method DumpCloudTasks(id: string) returns (out: seq<Task>)
      requires Valid() && id in clouds
      ensures forall t :: t in out <==> t in CloudParts(View())[id]
      ensures NoDuplicates(out)
    {
      out := clouds[id].DumpTasks();
    }

    // ---- Looking up the subscription of one slot -------------------------------------------------------

    method LoadDevicesSubscription(cloudID: string, linkedAccountID: string) returns (data: SubscriptionData, ok: bool)
      requires Valid()
      ensures ok == SlotAt(View(), DevicesPath(cloudID, linkedAccountID)).Some?
      ensures ok ==> data.subscription == SlotAt(View(), DevicesPath(cloudID, linkedAccountID)).value
      ensures data == if Present(View(), AccountScope(cloudID, linkedAccountID))
                      then DataAt(View(), cloudID, linkedAccountID, data.subscription) else NO_DATA
    {
      var cloud, account := LoadLinkedAccount(cloudID, linkedAccountID);
      if cloud == null {
        return NO_DATA, false;
      }
      AccountShape(cloudID, linkedAccountID);
      return SubscriptionData(account.linkedAccount, cloud.linkedCloud, account.subscription), account.isSubscribed;
    }

    method LoadDeviceSubscription(cloudID: string, linkedAccountID: string, deviceID: string) returns (data: SubscriptionData, ok: bool)
      requires Valid()
      ensures ok == SlotAt(View(), DevicePath(cloudID, linkedAccountID, deviceID)).Some?
      ensures ok ==> data.subscription == SlotAt(View(), DevicePath(cloudID, linkedAccountID, deviceID)).value
      ensures data == if Present(View(), DeviceScope(cloudID, linkedAccountID, deviceID))
                      then DataAt(View(), cloudID, linkedAccountID, data.subscription) else NO_DATA
    {
      var cloud, account, device := LoadDevice(cloudID, linkedAccountID, deviceID);
      if cloud == null {
        return NO_DATA, false;
      }
      AccountShape(cloudID, linkedAccountID);
      account.DeviceShape(deviceID);
      return SubscriptionData(account.linkedAccount, cloud.linkedCloud, device.subscription), device.isSubscribed;
    }

    method LoadResourceSubscription(cloudID: string, linkedAccountID: string, deviceID: string, href: string)
      returns (data: SubscriptionData, ok: bool)
      requires Valid()
      ensures ok == SlotAt(View(), ResourcePath(cloudID, linkedAccountID, deviceID, href)).Some?
      ensures ok ==> data.subscription == SlotAt(View(), ResourcePath(cloudID, linkedAccountID, deviceID, href)).value
      ensures data == if Present(View(), ResourceScope(cloudID, linkedAccountID, deviceID, href))
                      then DataAt(View(), cloudID, linkedAccountID, data.subscription) else NO_DATA
    {
      var cloud, account, device := LoadDevice(cloudID, linkedAccountID, deviceID);
      if cloud == null {
        return NO_DATA, false;
      }
      AccountShape(cloudID, linkedAccountID);
      account.DeviceShape(deviceID);
      device.ResourceShape(href);
      if href !in device.resources {
        return NO_DATA, false;
      }
      var resource := device.resources[href];
      return SubscriptionData(account.linkedAccount, cloud.linkedCloud, resource.subscription), resource.isSubscribed;
    }
  }
}
