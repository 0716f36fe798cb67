/** The subscription tasks a cache state calls for, found by visiting every slot without any shortcut. */
module SubscriptionTasks {
  import opened Records
  import opened CacheTree
  import opened SupportedEvents

  ghost predicate WantsDevices(e: Events) { !PullsDevices(e) }

  ghost predicate WantsDevice(e: Events) { !PullsDevice(e) && !e.staticDeviceEvents }

  ghost predicate WantsResources(e: Events) { !PullsResources(e) }

  ghost function ResourceTasks(slot: Option<Subscription>, cloud: LinkedCloud, account: LinkedAccount, device: string, href: string): set<Task> {
    if slot.None? then {Task(SubscribeToResource, cloud, account, device, href)} else {}
  }

  ghost function DeviceTasks(d: DeviceTree, cloud: LinkedCloud, account: LinkedAccount, device: string): set<Task> {
    (if WantsDevice(cloud.supportedEvents) && d.slot.None? then {Task(SubscribeToDevice, cloud, account, device, "")} else {})
    + set h, t | h in d.resources && t in ResourceTasks(d.resources[h], cloud, account, device, h)
                 && WantsResources(cloud.supportedEvents) :: t
  }

  ghost function AccountTasks(a: AccountTree, cloud: LinkedCloud): set<Task> {
    (if WantsDevices(cloud.supportedEvents) && a.slot.None? then {Task(SubscribeToDevices, cloud, a.account, "", "")} else {})
    + set d, t | d in a.devices && t in DeviceTasks(a.devices[d], cloud, a.account, d) :: t
  }

  ghost function CloudTasks(c: CloudTree): set<Task> {
    set a, t | a in c.accounts && t in AccountTasks(c.accounts[a], c.cloud) :: t
  }

  ghost function TreeTasks(t: Tree): set<Task> {
    set c, k | c in t && k in CloudTasks(t[c]) :: k
  }

  // ---- Gathering the tasks of the children of a node, in any order -----------------------------------

  // `out` starts with `first` and holds, once each, the tasks of the children not in `left`.
  ghost predicate Gathered(out: seq<Task>, first: seq<Task>, parts: map<string, set<Task>>, left: set<string>) {
    && NoDuplicates(out)
    && (forall t :: t in first ==> t in out)
    && (forall k, t :: k in parts && k !in left && t in parts[k] ==> t in out)
    && (forall t :: t in out ==> t in first || exists k :: k in parts && k !in left && t in parts[k])
  }

  ghost predicate Separate(first: seq<Task>, parts: map<string, set<Task>>) {
    && (forall k, t :: k in parts && t in parts[k] ==> t !in first)
    && (forall j, k :: j in parts && k in parts && j != k ==> parts[j] !! parts[k])
  }

  lemma GatherNone(first: seq<Task>, parts: map<string, set<Task>>)
    requires NoDuplicates(first)
    ensures Gathered(first, first, parts, parts.Keys)
  {
  }

  lemma GatheredOnce(out: seq<Task>, first: seq<Task>, parts: map<string, set<Task>>)
    requires Gathered(out, first, parts, {})
    ensures NoDuplicates(out)
  {
  }

  lemma GatherOne(out: seq<Task>, first: seq<Task>, parts: map<string, set<Task>>, left: set<string>, key: string, v: seq<Task>)
    requires Gathered(out, first, parts, left) && Separate(first, parts)
    requires key in left && key in parts
    requires NoDuplicates(v) && forall t :: t in v <==> t in parts[key]
    ensures Gathered(out + v, first, parts, left - {key})
  {
    forall x | x in out ensures x !in v {
      if x !in first {
        var k :| k in parts && k !in left && x in parts[k];
        assert parts[k] !! parts[key];
      }
    }
    AppendNoDuplicates(out, v);
    forall t | t in out + v ensures t in first || exists k :: k in parts && k !in left - {key} && t in parts[k] {
      if t in v {
        assert key !in left - {key};
      } else if t !in first {
        var k :| k in parts && k !in left && t in parts[k];
        assert k !in left - {key};
      }
    }
  }

  ghost function ResourceParts(d: DeviceTree, cloud: LinkedCloud, account: LinkedAccount, device: string): map<string, set<Task>> {
    map h | h in d.resources :: ResourceTasks(d.resources[h], cloud, account, device, h)
  }

  ghost function DeviceParts(a: AccountTree, cloud: LinkedCloud): map<string, set<Task>> {
    map d | d in a.devices :: DeviceTasks(a.devices[d], cloud, a.account, d)
  }

  ghost function AccountParts(c: CloudTree): map<string, set<Task>> {
    map a | a in c.accounts :: AccountTasks(c.accounts[a], c.cloud)
  }

  ghost function CloudParts(t: Tree): map<string, set<Task>> {
    map c | c in t :: CloudTasks(t[c])
  }

  // A task carries the names of the node it is for.
  lemma DeviceTasksTagged(d: DeviceTree, cloud: LinkedCloud, account: LinkedAccount, device: string)
    ensures forall t :: t in DeviceTasks(d, cloud, account, device) ==>
              t.linkedCloud == cloud && t.linkedAccount == account && t.deviceID == device && !t.taskType.SubscribeToDevices?
  {
  }

  lemma AccountTasksTagged(a: AccountTree, cloud: LinkedCloud)
    ensures forall t :: t in AccountTasks(a, cloud) ==> t.linkedCloud == cloud && t.linkedAccount == a.account
  {
    forall d | d in a.devices {
      DeviceTasksTagged(a.devices[d], cloud, a.account, d);
    }
  }

  lemma CloudTasksTagged(c: CloudTree)
    ensures forall t :: t in CloudTasks(c) ==> t.linkedCloud == c.cloud
  {
    forall a | a in c.accounts {
      AccountTasksTagged(c.accounts[a], c.cloud);
    }
  }

  lemma ResourcePartsSeparate(d: DeviceTree, cloud: LinkedCloud, account: LinkedAccount, device: string, first: seq<Task>)
    requires forall t :: t in first ==> t.taskType == SubscribeToDevice
    ensures Separate(first, ResourceParts(d, cloud, account, device))
  {
  }

  lemma DevicePartsSeparate(a: AccountTree, cloud: LinkedCloud, first: seq<Task>)
    requires forall t :: t in first ==> t.taskType == SubscribeToDevices
    ensures Separate(first, DeviceParts(a, cloud))
  {
    forall d | d in a.devices {
      DeviceTasksTagged(a.devices[d], cloud, a.account, d);
    }
  }

  lemma AccountPartsSeparate(c: CloudTree)
    requires forall a :: a in c.accounts ==> c.accounts[a].account.id == a
    ensures Separate([], AccountParts(c))
  {
    forall a | a in c.accounts {
      AccountTasksTagged(c.accounts[a], c.cloud);
    }
  }

  lemma CloudPartsSeparate(t: Tree)
    requires forall c :: c in t ==> t[c].cloud.id == c
    ensures Separate([], CloudParts(t))
  {
    forall c | c in t {
      CloudTasksTagged(t[c]);
    }
  }

  // What each DumpTasks returns, early exits included, is the unguarded task set.
  lemma DeviceTasksGathered(d: DeviceTree, cloud: LinkedCloud, account: LinkedAccount, device: string, first: seq<Task>, out: seq<Task>)
    requires forall t :: t in first <==> WantsDevice(cloud.supportedEvents) && d.slot.None?
                                         && t == Task(SubscribeToDevice, cloud, account, device, "")
    requires if WantsResources(cloud.supportedEvents)
             then Gathered(out, first, ResourceParts(d, cloud, account, device), {}) else out == first
    ensures forall t :: t in out <==> t in DeviceTasks(d, cloud, account, device)
  {
    var parts := ResourceParts(d, cloud, account, device);
    forall t | t in out ensures t in DeviceTasks(d, cloud, account, device) {
      if t !in first {
        var h :| h in parts && t in parts[h];
        assert h in d.resources && t in ResourceTasks(d.resources[h], cloud, account, device, h);
      }
    }
    forall t | t in DeviceTasks(d, cloud, account, device) ensures t in out {
      if t !in first {
        var h :| h in d.resources && t in ResourceTasks(d.resources[h], cloud, account, device, h)
                 && WantsResources(cloud.supportedEvents);
        assert h in parts && t in parts[h];
      }
    }
  }

  lemma AccountTasksGathered(a: AccountTree, cloud: LinkedCloud, first: seq<Task>, out: seq<Task>)
    requires forall t :: t in first <==> WantsDevices(cloud.supportedEvents) && a.slot.None?
                                         && t == Task(SubscribeToDevices, cloud, a.account, "", "")
    requires if PullsDevice(cloud.supportedEvents) && PullsResources(cloud.supportedEvents)
             then out == first else Gathered(out, first, DeviceParts(a, cloud), {})
    ensures forall t :: t in out <==> t in AccountTasks(a, cloud)
  {
    var parts := DeviceParts(a, cloud);
    forall t | t in out ensures t in AccountTasks(a, cloud) {
      if t !in first {
        var d :| d in parts && t in parts[d];
        assert d in a.devices && t in DeviceTasks(a.devices[d], cloud, a.account, d);
      }
    }
    forall t | t in AccountTasks(a, cloud) ensures t in out {
      if t !in first {
        var d :| d in a.devices && t in DeviceTasks(a.devices[d], cloud, a.account, d);
        assert d in parts && t in parts[d];
      }
    }
  }

  lemma CloudTasksGathered(c: CloudTree, out: seq<Task>)
    requires if PullsDevices(c.cloud.supportedEvents) && PullsDevice(c.cloud.supportedEvents) && PullsResources(c.cloud.supportedEvents)
             then out == [] else Gathered(out, [], AccountParts(c), {})
    ensures forall t :: t in out <==> t in CloudTasks(c)
  {
    var parts := AccountParts(c);
    forall t | t in out ensures t in CloudTasks(c) {
      var a :| a in parts && t in parts[a];
      assert a in c.accounts && t in AccountTasks(c.accounts[a], c.cloud);
    }
    forall t | t in CloudTasks(c) ensures t in out {
      var a :| a in c.accounts && t in AccountTasks(c.accounts[a], c.cloud);
      if PullsDevices(c.cloud.supportedEvents) && PullsDevice(c.cloud.supportedEvents) && PullsResources(c.cloud.supportedEvents) {
        AccountTasksGathered(c.accounts[a], c.cloud, [], []);
      }
      assert a in parts && t in parts[a];
    }
  }

  lemma TreeTasksGathered(tree: Tree, out: seq<Task>)
    requires Gathered(out, [], CloudParts(tree), {})
    ensures forall t :: t in out <==> t in TreeTasks(tree)
  {
    var parts := CloudParts(tree);
    forall t | t in out ensures t in TreeTasks(tree) {
      var c :| c in parts && t in parts[c];
      assert c in tree && t in CloudTasks(tree[c]);
    }
    forall t | t in TreeTasks(tree) ensures t in out {
      var c :| c in tree && t in CloudTasks(tree[c]);
      assert c in parts && t in parts[c];
    }
  }
}
