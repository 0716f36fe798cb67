/**
 * Resubscription converges: DumpTasks names exactly the free slots that the clouds' supported events call for,
 * and every stored subscription takes exactly its own task off that list.
 */
module Resubscribe {
  import opened Records
  import opened CacheTree
  import opened SupportedEvents
  import opened CacheLaws
  import opened SubscriptionTasks
  import opened Store
  import opened SubscriptionManager

  // ---- Which slots call for a task -------------------------------------------------------------------

  // The node that holds the slot exists.
  ghost predicate HasNode(t: Tree, p: Path) {
    && HasAccount(t, p.cloud, p.account)
    && (!p.DevicesPath? ==> p.device in t[p.cloud].accounts[p.account].devices)
    && (p.ResourcePath? ==> p.href in t[p.cloud].accounts[p.account].devices[p.device].resources)
  }

  ghost predicate Wanted(e: Events, p: Path) {
    match p
    case DevicesPath(_, _) => WantsDevices(e)
    case DevicePath(_, _, _) => WantsDevice(e)
    case ResourcePath(_, _, _, _) => WantsResources(e)
  }

  ghost predicate Pending(t: Tree, p: Path) {
    HasNode(t, p) && Wanted(t[p.cloud].cloud.supportedEvents, p) && SlotAt(t, p).None?
  }

  ghost function TaskAt(t: Tree, p: Path): Task
    requires HasAccount(t, p.cloud, p.account)
  {
    var c := t[p.cloud].cloud;
    var a := t[p.cloud].accounts[p.account].account;
    match p
    case DevicesPath(_, _) => Task(SubscribeToDevices, c, a, "", "")
    case DevicePath(_, _, d) => Task(SubscribeToDevice, c, a, d, "")
    case ResourcePath(_, _, d, h) => Task(SubscribeToResource, c, a, d, h)
  }

  function PathOfTask(t: Task): Path {
    match t.taskType
    case SubscribeToDevices => DevicesPath(t.linkedCloud.id, t.linkedAccount.id)
    case SubscribeToDevice => DevicePath(t.linkedCloud.id, t.linkedAccount.id, t.deviceID)
    case _ => ResourcePath(t.linkedCloud.id, t.linkedAccount.id, t.deviceID, t.href)
  }

  lemma TasksOfDevice(d: DeviceTree, t: Tree, c: string, a: string, dev: string, task: Task)
    requires HasAccount(t, c, a) && dev in t[c].accounts[a].devices && d == t[c].accounts[a].devices[dev]
    ensures task in DeviceTasks(d, t[c].cloud, t[c].accounts[a].account, dev) <==>
            exists p :: Pending(t, p) && p.cloud == c && p.account == a && !p.DevicesPath? && p.device == dev && task == TaskAt(t, p)
  {
    var cloud, acc := t[c].cloud, t[c].accounts[a].account;
    if task in DeviceTasks(d, cloud, acc, dev) {
      var p := if task.taskType == SubscribeToDevice then DevicePath(c, a, dev) else ResourcePath(c, a, dev, task.href);
      assert Pending(t, p) && task == TaskAt(t, p);
    }
    if p :| Pending(t, p) && p.cloud == c && p.account == a && !p.DevicesPath? && p.device == dev && task == TaskAt(t, p) {
      if p.ResourcePath? {
        assert p.href in d.resources && task in ResourceTasks(d.resources[p.href], cloud, acc, dev, p.href);
      }
    }
  }

  // DumpTasks, early exits and all, asks for exactly the pending slots.
  lemma TasksAreThePendingSlots(t: Tree, task: Task)
    ensures task in TreeTasks(t) <==> exists p :: Pending(t, p) && task == TaskAt(t, p)
  {
    if task in TreeTasks(t) {
      var c :| c in t && task in CloudTasks(t[c]);
      var a :| a in t[c].accounts && task in AccountTasks(t[c].accounts[a], t[c].cloud);
      var acc := t[c].accounts[a];
      if task == Task(SubscribeToDevices, t[c].cloud, acc.account, "", "") && WantsDevices(t[c].cloud.supportedEvents) && acc.slot.None? {
        assert Pending(t, DevicesPath(c, a)) && task == TaskAt(t, DevicesPath(c, a));
      } else {
        var d :| d in acc.devices && task in DeviceTasks(acc.devices[d], t[c].cloud, acc.account, d);
        TasksOfDevice(acc.devices[d], t, c, a, d, task);
      }
    }
    if p :| Pending(t, p) && task == TaskAt(t, p) {
      var acc := t[p.cloud].accounts[p.account];
      if !p.DevicesPath? {
        TasksOfDevice(acc.devices[p.device], t, p.cloud, p.account, p.device, task);
        assert task in DeviceTasks(acc.devices[p.device], t[p.cloud].cloud, acc.account, p.device);
      }
      assert task in AccountTasks(acc, t[p.cloud].cloud);
      assert task in CloudTasks(t[p.cloud]);
    }
  }

  // What calls for a task, event by event.
  ghost predicate CallsFor(e: Events, a: AccountTree, task: Task) {
    match task.taskType
    case SubscribeToDevices =>
      && task.deviceID == "" && task.href == "" && a.slot.None?
      && "devices_online" in e.devices && "devices_offline" in e.devices
      && "devices_registered" in e.devices && "devices_unregistered" in e.devices
    case SubscribeToDevice =>
      && task.href == "" && task.deviceID in a.devices && a.devices[task.deviceID].slot.None?
      && "resources_published" in e.device && "resources_unpublished" in e.device && !e.staticDeviceEvents
    case SubscribeToResource =>
      && task.deviceID in a.devices && task.href in a.devices[task.deviceID].resources
      && a.devices[task.deviceID].resources[task.href].None? && "resource_contentchanged" in e.resource
    case _ => false
  }

  lemma PendingIsCalledFor(t: Tree, p: Path)
    requires HasAccount(t, p.cloud, p.account)
    ensures Pending(t, p) <==> CallsFor(t[p.cloud].cloud.supportedEvents, t[p.cloud].accounts[p.account], TaskAt(t, p))
  {
    hide PullsDevices, PullsDevice, PullsResources;
    EventNames(t[p.cloud].cloud.supportedEvents);
  }

  // The slot that calls for a task.
  lemma CalledForPath(t: Tree, c: string, a: string, task: Task) returns (p: Path)
    requires HasAccount(t, c, a) && CallsFor(t[c].cloud.supportedEvents, t[c].accounts[a], task)
    requires task.linkedCloud == t[c].cloud && task.linkedAccount == t[c].accounts[a].account
    ensures p.cloud == c && p.account == a && TaskAt(t, p) == task
  {
    p := if task.taskType.SubscribeToDevices? then DevicesPath(c, a)
         else if task.taskType.SubscribeToDevice? then DevicePath(c, a, task.deviceID)
         else ResourcePath(c, a, task.deviceID, task.href);
  }

  lemma TaskAtParties(t: Tree, p: Path)
    requires HasAccount(t, p.cloud, p.account)
    ensures TaskAt(t, p).linkedCloud == t[p.cloud].cloud && TaskAt(t, p).linkedAccount == t[p.cloud].accounts[p.account].account
  {
  }

  lemma PendingPath(t: Tree, task: Task) returns (p: Path)
    requires task in TreeTasks(t)
    ensures HasAccount(t, p.cloud, p.account) && Pending(t, p) && task == TaskAt(t, p)
  {
    hide TreeTasks, TaskAt;
    TasksAreThePendingSlots(t, task);
    p :| Pending(t, p) && task == TaskAt(t, p);
  }

  lemma PendingIsATask(t: Tree, p: Path)
    requires HasAccount(t, p.cloud, p.account) && Pending(t, p)
    ensures TaskAt(t, p) in TreeTasks(t)
  {
    hide TreeTasks, TaskAt;
    TasksAreThePendingSlots(t, TaskAt(t, p));
  }

  // Main result: the tasks in plain terms, each with the records of the cloud and the account its free slot is in.
  lemma TasksNamed(t: Tree, task: Task)
    ensures task in TreeTasks(t) <==>
            exists c, a :: HasAccount(t, c, a) && task.linkedCloud == t[c].cloud && task.linkedAccount == t[c].accounts[a].account
                           && CallsFor(t[c].cloud.supportedEvents, t[c].accounts[a], task)
  {
    hide TreeTasks, Pending, TaskAt, CallsFor;
    if task in TreeTasks(t) {
      var p := PendingPath(t, task);
      PendingIsCalledFor(t, p);
      TaskAtParties(t, p);
    }
    if c, a :| HasAccount(t, c, a) && task.linkedCloud == t[c].cloud && task.linkedAccount == t[c].accounts[a].account
               && CallsFor(t[c].cloud.supportedEvents, t[c].accounts[a], task) {
      var p := CalledForPath(t, c, a, task);
      PendingIsCalledFor(t, p);
      PendingIsATask(t, p);
    }
  }

  // One task a slot: a task names its slot.
  lemma TaskNamesItsSlot(t: Tree, p: Path)
    requires WellKeyed(t) && HasAccount(t, p.cloud, p.account)
    ensures PathOfTask(TaskAt(t, p)) == p
  {
  }

  lemma TaskIsPending(t: Tree, task: Task)
    requires WellKeyed(t)
    ensures task in TreeTasks(t) <==> Pending(t, PathOfTask(task)) && task == TaskAt(t, PathOfTask(task))
  {
    TasksAreThePendingSlots(t, task);
    if p :| Pending(t, p) && task == TaskAt(t, p) {
      TaskNamesItsSlot(t, p);
    }
  }

  // ---- Storing the subscription a task asked for -----------------------------------------------------

  lemma PutAtNodeKeepsOtherTasks(t: Tree, p: Path, s: Subscription, q: Path)
    requires HasNode(t, p)
    ensures var t' := Put(t, p, Some(s));
            && (Pending(t', q) <==> Pending(t, q) && q != p)
            && (HasAccount(t', q.cloud, q.account) <==> HasAccount(t, q.cloud, q.account))
            && (HasAccount(t, q.cloud, q.account) ==> TaskAt(t', q) == TaskAt(t, q))
  {
    PutGet(t, p, Some(s), q);
  }

  // A subscription with a new ID, stored where its task points, removes that task and no other.
  lemma StoringRemovesExactlyThatTask(st: CacheState, task: Task, sub: Subscription)
    requires Consistent(st) && task in TreeTasks(st.clouds)
    requires PathOf(sub) == PathOfTask(task) && sub.id !in st.index
    ensures var st' := LoadOrCreateSubscription(st, sub).0;
            && TreeTasks(st'.clouds) == TreeTasks(st.clouds) - {task}
            && |TreeTasks(st'.clouds)| == |TreeTasks(st.clouds)| - 1
            && st'.index == st.index[sub.id := sub]
            && SlotAt(st'.clouds, PathOfTask(task)) == Some(sub)
            && Consistent(st')
  {
    var p := PathOf(sub);
    TaskIsPending(st.clouds, task);
    var st' := LoadOrCreateSubscription(st, sub).0;
    CreateSubEffect(st, sub);
    CreateSubKeepsConsistent(st, sub);
    assert st'.clouds == Put(st.clouds, p, Some(sub));
    forall k ensures k in TreeTasks(st'.clouds) <==> k in TreeTasks(st.clouds) && k != task {
      TaskIsPending(st.clouds, k);
      TaskIsPending(st'.clouds, k);
      PutAtNodeKeepsOtherTasks(st.clouds, p, sub, PathOfTask(k));
    }
    assert TreeTasks(st'.clouds) == TreeTasks(st.clouds) - {task};
  }

  // ---- The subscribe request of a task ---------------------------------------------------------------

  // A task on its way: the secret and the correlation ID drawn for it and the ID the remote will grant.
  datatype Request = Request(task: Task, signingSecret: string, correlationID: string, id: string)

  // The record parked for it ...
  function Asked(r: Request): Subscription {
    NewSubscription(PathOfTask(r.task), r.task.linkedAccount, r.task.linkedCloud, r.signingSecret, r.correlationID)
  }

  // ... and the one stored once it is granted.
  function Granted(r: Request): Subscription { Asked(r).(id := r.id) }

  ghost function BeginTask(m: ManagerState, r: Request): (ManagerState, Begun) {
    Begin(m, PathOfTask(r.task), r.task.linkedAccount, r.task.linkedCloud, r.signingSecret, r.correlationID)
  }

  lemma GrantedFits(r: Request)
    ensures PathOf(Granted(r)) == PathOfTask(r.task)
  {
  }

  // A task of the list is parked under its correlation ID, by the lookup the Subscribe functions make: the
  // account's cloud ID is that of the cloud.
  lemma TaskIsRequested(m: ManagerState, r: Request)
    requires Consistent(m.cache) && r.task in TreeTasks(m.cache.clouds) && r.correlationID !in m.parked
    ensures r.task.linkedAccount.linkedCloudID == r.task.linkedCloud.id
    ensures BeginTask(m, r) == (m.(parked := m.parked[r.correlationID := SubscriptionData(r.task.linkedAccount, r.task.linkedCloud, Asked(r))]),
                                Parked(Asked(r)))
  {
    TaskIsPending(m.cache.clouds, r.task);
  }

  // The response then takes exactly that task off the list.
  lemma ResponseRemovesTask(m: ManagerState, r: Request)
    requires Consistent(m.cache) && r.task in TreeTasks(m.cache.clouds) && r.id !in m.cache.index
    ensures var (m', answer) := Respond(m, Asked(r), Some(r.id));
            && answer.Subscribed? && m'.parked == m.parked
            && TreeTasks(m'.cache.clouds) == TreeTasks(m.cache.clouds) - {r.task}
            && SlotAt(m'.cache.clouds, PathOfTask(r.task)) == Some(Granted(r))
  {
    hide TreeTasks, Consistent, PathOfTask, PathOf, LoadOrCreateSubscription;
    GrantedFits(r);
    StoringRemovesExactlyThatTask(m.cache, r.task, Granted(r));
    StoredOrLoaded(m.cache, Granted(r));
  }

  lemma StoredOrLoaded(st: CacheState, sub: Subscription)
    requires SlotAt(LoadOrCreateSubscription(st, sub).0.clouds, PathOf(sub)).Some? && Consistent(st)
    ensures LoadOrCreateSubscription(st, sub).1.Stored?
  {
    DanglingBranchUnreachable(st, sub.id);
  }

  // ---- Many requests at once -------------------------------------------------------------------------

  // What happens to the k-th request: it is begun, answered, or its first event arrives.
  datatype RoundStep = Begins(k: nat) | Grants(k: nat) | Refuses(k: nat) | FirstEvent(k: nat)

  ghost function RoundApply(m: ManagerState, rs: seq<Request>, s: RoundStep): ManagerState
    requires s.k < |rs|
  {
    match s
    case Begins(k) => BeginTask(m, rs[k]).0
    case Grants(k) => Respond(m, Asked(rs[k]), Some(rs[k].id)).0
    case Refuses(k) => Respond(m, Asked(rs[k]), None).0
    case FirstEvent(k) => Receive(m, rs[k].id, rs[k].correlationID).0
  }

  // The requests a step brings home: a granted one, or one whose first event finds it parked.
  ghost function BroughtHome(m: ManagerState, rs: seq<Request>, s: RoundStep): set<nat>
    requires s.k < |rs|
  {
    if s.Grants? || (s.FirstEvent? && rs[s.k].correlationID in m.parked) then {s.k} else {}
  }

  ghost predicate StepsOf(rs: seq<Request>, steps: seq<RoundStep>) {
    forall i :: 0 <= i < |steps| ==> steps[i].k < |rs|
  }

  ghost function RunRound(m: ManagerState, rs: seq<Request>, steps: seq<RoundStep>): (ManagerState, set<nat>)
    requires StepsOf(rs, steps)
    decreases |steps|
  {
    if steps == [] then (m, {})
    else
      var (end, home) := RunRound(RoundApply(m, rs, steps[0]), rs, steps[1..]);
      (end, BroughtHome(m, rs, steps[0]) + home)
  }

  // No two requests share an ID or a correlation ID.
  ghost predicate Distinct(rs: seq<Request>) {
    forall i, j :: 0 <= i < j < |rs| ==> rs[i].id != rs[j].id && rs[i].correlationID != rs[j].correlationID
  }

  // Requests for tasks of the list, not necessarily all different, with IDs and correlation IDs nobody has.
  ghost predicate FreshRequests(m: ManagerState, rs: seq<Request>) {
    && (forall k :: 0 <= k < |rs| ==>
          rs[k].task in TreeTasks(m.cache.clouds) && rs[k].id !in m.cache.index && rs[k].correlationID !in m.parked)
    && Distinct(rs)
  }

  ghost function TasksOf(rs: seq<Request>, ks: set<nat>): set<Task> {
    set k | k in ks && k < |rs| :: rs[k].task
  }

  // The slots and IDs of the requests brought home are taken, and no other request's ID is.
  ghost predicate HomeOk(st: CacheState, rs: seq<Request>, home: set<nat>) {
    && (forall k :: 0 <= k < |rs| && rs[k].id in st.index ==> k in home)
    && (forall k :: k in home && k < |rs| ==> SlotAt(st.clouds, PathOfTask(rs[k].task)).Some?)
  }

  ghost predicate RoundInv(m: ManagerState, rs: seq<Request>, todo: set<Task>, home: set<nat>) {
    && Consistent(m.cache) && Distinct(rs) && HomeOk(m.cache, rs, home)
    && (forall k :: 0 <= k < |rs| ==> rs[k].task in todo)
    && TreeTasks(m.cache.clouds) == todo - TasksOf(rs, home)
    && (forall k :: 0 <= k < |rs| && rs[k].correlationID in m.parked ==> m.parked[rs[k].correlationID].subscription == Asked(rs[k]))
  }

  lemma TasksWithOne(rs: seq<Request>, home: set<nat>, k: nat)
    requires k < |rs|
    ensures TasksOf(rs, home + {k}) == TasksOf(rs, home) + {rs[k].task}
  {
  }

  lemma HomeAfterStore(st: CacheState, rs: seq<Request>, home: set<nat>, k: nat)
    requires Consistent(st) && Distinct(rs) && HomeOk(st, rs, home) && k < |rs|
    requires SlotAt(LoadOrCreateSubscription(st, Granted(rs[k])).0.clouds, PathOfTask(rs[k].task)).Some?
    ensures HomeOk(LoadOrCreateSubscription(st, Granted(rs[k])).0, rs, home + {k})
  {
    hide Consistent, PathOfTask, PathOf, LoadOrCreateSubscription, SlotAt, Asked, HasAccount, WellKeyed;
    CreateSubEffect(st, Granted(rs[k]));
    var st' := LoadOrCreateSubscription(st, Granted(rs[k])).0;
    forall l | 0 <= l < |rs| && rs[l].id in st'.index ensures l in home + {k} {
      assert rs[l].id in st.index || rs[l].id == rs[k].id;
      if l != k {
        assert rs[l].id != rs[k].id by {
          if l < k {
            assert rs[l].id != rs[k].id;
          } else {
            assert rs[k].id != rs[l].id;
          }
        }
      }
    }
  }

  lemma ListedIsNotHome(m: ManagerState, rs: seq<Request>, todo: set<Task>, home: set<nat>, k: nat)
    requires RoundInv(m, rs, todo, home) && k < |rs| && rs[k].task in TreeTasks(m.cache.clouds)
    ensures k !in home && rs[k].id !in m.cache.index
  {
    hide TreeTasks, Consistent, PathOfTask, PathOf, SlotAt, Asked;
  }

  // The first request for a task to be stored.
  lemma FirstStoreKeepsRound(m: ManagerState, rs: seq<Request>, todo: set<Task>, home: set<nat>, k: nat)
    requires RoundInv(m, rs, todo, home) && k < |rs| && rs[k].task in TreeTasks(m.cache.clouds)
    ensures RoundInv(m.(cache := LoadOrCreateSubscription(m.cache, Granted(rs[k])).0), rs, todo, home + {k})
  {
    hide TreeTasks, Consistent, PathOfTask, PathOf, LoadOrCreateSubscription, SlotAt, Asked, HasAccount, WellKeyed, TasksOf, HomeOk;
    var r := rs[k];
    TasksWithOne(rs, home, k);
    ListedIsNotHome(m, rs, todo, home, k);
    GrantedFits(r);
    StoringRemovesExactlyThatTask(m.cache, r.task, Granted(r));
    HomeAfterStore(m.cache, rs, home, k);
  }

  // A later one: another request for the task was faster.
  lemma LaterStoreKeepsRound(m: ManagerState, rs: seq<Request>, todo: set<Task>, home: set<nat>, k: nat)
    requires RoundInv(m, rs, todo, home) && k < |rs| && rs[k].task !in TreeTasks(m.cache.clouds)
    ensures RoundInv(m.(cache := LoadOrCreateSubscription(m.cache, Granted(rs[k])).0), rs, todo, home + {k})
  {
    hide TreeTasks, Consistent, PathOfTask, PathOf, LoadOrCreateSubscription, SlotAt, Asked, HasAccount, WellKeyed;
    var r := rs[k];
    GrantedFits(r);
    var l :| l in home && l < |rs| && rs[l].task == r.task;
    CreateSubEffect(m.cache, Granted(r));
    assert LoadOrCreateSubscription(m.cache, Granted(r)).0 == m.cache;
    TasksWithOne(rs, home, k);
  }

  lemma StoreKeepsRound(m: ManagerState, rs: seq<Request>, todo: set<Task>, home: set<nat>, k: nat)
    requires RoundInv(m, rs, todo, home) && k < |rs|
    ensures RoundInv(m.(cache := LoadOrCreateSubscription(m.cache, Granted(rs[k])).0), rs, todo, home + {k})
  {
    hide RoundInv;
    if rs[k].task in TreeTasks(m.cache.clouds) {
      FirstStoreKeepsRound(m, rs, todo, home, k);
    } else {
      LaterStoreKeepsRound(m, rs, todo, home, k);
    }
  }

  lemma RoundStepKeeps(m: ManagerState, rs: seq<Request>, todo: set<Task>, home: set<nat>, s: RoundStep)
    requires RoundInv(m, rs, todo, home) && s.k < |rs|
    ensures RoundInv(RoundApply(m, rs, s), rs, todo, home + BroughtHome(m, rs, s))
  {
    hide TreeTasks, Consistent, PathOfTask, PathOf, LoadOrCreateSubscription, SlotAt;
    assert home + {} == home;
    match s
    case Begins(_) =>
    case Grants(k) => StoreKeepsRound(m, rs, todo, home, k);
    case Refuses(_) =>
    case FirstEvent(k) =>
      if rs[k].correlationID in m.parked {
        StoreKeepsRound(m, rs, todo, home, k);
      } else {
        LaterEventsChangeNothing(m, rs[k].id, rs[k].correlationID);
      }
  }

  lemma {:induction false} RunKeepsRound(m: ManagerState, rs: seq<Request>, todo: set<Task>, home: set<nat>, steps: seq<RoundStep>)
    requires RoundInv(m, rs, todo, home) && StepsOf(rs, steps)
    ensures RoundInv(RunRound(m, rs, steps).0, rs, todo, home + RunRound(m, rs, steps).1)
    decreases |steps|
  {
    hide RoundInv, RoundApply, BroughtHome;
    assert home + {} == home;
    if steps != [] {
      var here := BroughtHome(m, rs, steps[0]);
      RoundStepKeeps(m, rs, todo, home, steps[0]);
      RunKeepsRound(RoundApply(m, rs, steps[0]), rs, todo, home + here, steps[1..]);
      var rest := RunRound(RoundApply(m, rs, steps[0]), rs, steps[1..]).1;
      assert home + here + rest == home + (here + rest);
    }
  }

  // Main result: however requests, responses and first events of the tasks interleave, what is still asked for
  // are exactly the tasks of which no request was brought home.
  lemma RoundLeavesTheRest(m: ManagerState, rs: seq<Request>, steps: seq<RoundStep>)
    requires Consistent(m.cache) && FreshRequests(m, rs) && StepsOf(rs, steps)
    ensures var (end, home) := RunRound(m, rs, steps);
            && Consistent(end.cache)
            && TreeTasks(end.cache.clouds) == TreeTasks(m.cache.clouds) - TasksOf(rs, home)
  {
    hide TreeTasks, Consistent, RunRound;
    assert TasksOf(rs, {}) == {};
    assert RoundInv(m, rs, TreeTasks(m.cache.clouds), {});
    RunKeepsRound(m, rs, TreeTasks(m.cache.clouds), {}, steps);
    assert {} + RunRound(m, rs, steps).1 == RunRound(m, rs, steps).1;
  }

  // Once a request for every task DumpTasks listed has been brought home there is nothing left to do.
  lemma FullRoundConverges(m: ManagerState, rs: seq<Request>, steps: seq<RoundStep>)
    requires Consistent(m.cache) && FreshRequests(m, rs) && StepsOf(rs, steps)
    requires TreeTasks(m.cache.clouds) <= TasksOf(rs, RunRound(m, rs, steps).1)
    ensures TreeTasks(RunRound(m, rs, steps).0.cache.clouds) == {}
  {
    RoundLeavesTheRest(m, rs, steps);
  }

  // ---- Tasks that events trigger ---------------------------------------------------------------------

  // The tasks an event triggers are for slots its cloud's supported events call for, or pulls of devices of a
  // cloud with static device events; each is for the account of the event.
  lemma {:induction false} TriggeredAreWanted(data: SubscriptionData, eventType: string, items: seq<Item>, t: Task)
    requires t in TasksFor(data, eventType, items)
    ensures t.linkedCloud == data.linkedCloud && t.linkedAccount == data.linkedAccount
    ensures if t.taskType == PullDevice then data.linkedCloud.supportedEvents.staticDeviceEvents
            else Wanted(data.linkedCloud.supportedEvents, PathOfTask(t))
    ensures exists i :: 0 <= i < |items| && items[i].ok && (if t.taskType == SubscribeToResource then t.href else t.deviceID) == items[i].name
  {
    var last := items[|items| - 1];
    if t in TasksFor(data, eventType, items[..|items| - 1]) {
      TriggeredAreWanted(data, eventType, items[..|items| - 1], t);
      var i :| 0 <= i < |items| - 1 && items[..|items| - 1][i].ok
               && (if t.taskType == SubscribeToResource then t.href else t.deviceID) == items[..|items| - 1][i].name;
      assert items[i] == items[..|items| - 1][i];
    } else {
      assert items[|items| - 1] == last;
    }
  }

  // ---- After a restart -------------------------------------------------------------------------------

  // The loaders bring back clouds and accounts, but no subscriptions and no devices.
  ghost predicate Bare(t: Tree) {
    forall c, a :: HasAccount(t, c, a) ==> t[c].accounts[a].slot.None? && t[c].accounts[a].devices == map[]
  }

  lemma {:induction false} LoadedCloudsAreBare(cs: seq<LinkedCloud>)
    ensures Bare(LoadClouds(EMPTY_CACHE, cs).clouds)
  {
    if cs != [] {
      LoadedCloudsAreBare(cs[..|cs| - 1]);
    }
  }

  lemma {:induction false} LoadedAccountsAreBare(st: CacheState, accs: seq<LinkedAccount>)
    requires Bare(st.clouds)
    ensures Bare(LoadAccounts(st, accs).clouds)
  {
    if accs != [] {
      LoadedAccountsAreBare(st, accs[..|accs| - 1]);
    }
  }

  // The devices task of an account in the database whose cloud is there and pushes its devices events.
  ghost predicate DevicesTaskOf(clouds: map<string, LinkedCloud>, accounts: map<string, LinkedAccount>, a: string, task: Task) {
    && a in accounts && accounts[a].linkedCloudID in clouds
    && WantsDevices(clouds[accounts[a].linkedCloudID].supportedEvents)
    && task == Task(SubscribeToDevices, clouds[accounts[a].linkedCloudID], accounts[a], "", "")
  }

  lemma TasksOfBareTree(st: StoreState, task: Task)
    requires Bare(st.cache.clouds) && Recoverable(st)
    ensures task in TreeTasks(st.cache.clouds) <==> exists a :: DevicesTaskOf(st.clouds, st.accounts, a, task)
  {
    hide TreeTasks, Recoverable;
    var t := st.cache.clouds;
    TasksAreThePendingSlots(t, task);
    RecoverableByRecords(st);
    if p :| Pending(t, p) && task == TaskAt(t, p) {
      assert p.DevicesPath?;
      assert RecordAt(t, p.cloud, p.account) == DbRecordAt(st.clouds, st.accounts, p.cloud, p.account);
      assert DevicesTaskOf(st.clouds, st.accounts, p.account, task);
    }
    if a :| DevicesTaskOf(st.clouds, st.accounts, a, task) {
      var c := st.accounts[a].linkedCloudID;
      assert RecordAt(t, c, a) == DbRecordAt(st.clouds, st.accounts, c, a);
      assert Pending(t, DevicesPath(c, a)) && task == TaskAt(t, DevicesPath(c, a));
    }
  }

  // Main result: what is resubscribed after a restart, whatever the order the database hands its records out in,
  // are exactly the devices subscriptions of the accounts whose cloud is in the database and supports devices
  // events; devices and resources follow from the events of those.
  lemma TasksAfterRestart(cs: seq<LinkedCloud>, accs: seq<LinkedAccount>, clouds: map<string, LinkedCloud>, accounts: map<string, LinkedAccount>, task: Task)
    requires CloudCursor(cs, clouds) && AccountCursor(accs, accounts)
    requires (forall c :: c in clouds ==> clouds[c].id == c) && (forall a :: a in accounts ==> accounts[a].id == a)
    ensures task in TreeTasks(LoadAccounts(LoadClouds(EMPTY_CACHE, cs), accs).clouds) <==> exists a :: DevicesTaskOf(clouds, accounts, a, task)
  {
    hide TreeTasks, Bare, LoadClouds, LoadAccounts, Skeleton, Loaded, CloudCursor, AccountCursor, DevicesTaskOf;
    LoadedCloudsAreBare(cs);
    LoadedAccountsAreBare(LoadClouds(EMPTY_CACHE, cs), accs);
    LoadersRebuild(cs, accs, clouds, accounts);
    TasksOfBareTree(StoreState(LoadAccounts(LoadClouds(EMPTY_CACHE, cs), accs), clouds, accounts), task);
  }

  // If the store was recoverable those are exactly the accounts it had before the restart.
  lemma RestartAsksForLiveAccounts(st: StoreState, cs: seq<LinkedCloud>, accs: seq<LinkedAccount>, task: Task)
    requires Keyed(st) && Recoverable(st) && CloudCursor(cs, st.clouds) && AccountCursor(accs, st.accounts)
    ensures task in TreeTasks(LoadAccounts(LoadClouds(EMPTY_CACHE, cs), accs).clouds) <==>
              exists c, a :: LiveDevicesTask(st.cache.clouds, c, a, task)
  {
    hide TreeTasks, Recoverable, LoadClouds, LoadAccounts, CloudCursor, AccountCursor, Consistent;
    RecoverableByRecords(st);
    TasksAfterRestart(cs, accs, st.clouds, st.accounts, task);
    if c, a :| LiveDevicesTask(st.cache.clouds, c, a, task) {
      assert RecordAt(st.cache.clouds, c, a) == DbRecordAt(st.clouds, st.accounts, c, a);
      assert DevicesTaskOf(st.clouds, st.accounts, a, task);
    }
    if a :| DevicesTaskOf(st.clouds, st.accounts, a, task) {
      var c := st.accounts[a].linkedCloudID;
      assert RecordAt(st.cache.clouds, c, a) == DbRecordAt(st.clouds, st.accounts, c, a);
      assert LiveDevicesTask(st.cache.clouds, c, a, task);
    }
  }

  ghost predicate LiveDevicesTask(t: Tree, c: string, a: string, task: Task) {
    HasAccount(t, c, a) && WantsDevices(t[c].cloud.supportedEvents) && task == TaskAt(t, DevicesPath(c, a))
  }
}
