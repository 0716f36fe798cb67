/**
 * What the subscription cache is, as values: a tree cloud -> linked account -> device -> resource whose
 * last three levels hold one subscription slot each, and an index from subscription ID to subscription.
 * The functions here specify the operations of the classes in CacheObjects.
 */
module CacheTree {
  import opened Records

  datatype DeviceTree = DeviceTree(slot: Option<Subscription>, resources: map<string, Option<Subscription>>)
  datatype AccountTree = AccountTree(account: LinkedAccount, slot: Option<Subscription>, devices: map<string, DeviceTree>)
  datatype CloudTree = CloudTree(cloud: LinkedCloud, accounts: map<string, AccountTree>)
  type Tree = map<string, CloudTree>

  datatype CacheState = CacheState(clouds: Tree, index: map<string, Subscription>)

  const EMPTY_CACHE := CacheState(map[], map[])

  // ---- Slots -------------------------------------------------------------------------------------

  // The address of a subscription slot.
  datatype Path =
    | DevicesPath(cloud: string, account: string)
    | DevicePath(cloud: string, account: string, device: string)
    | ResourcePath(cloud: string, account: string, device: string, href: string)

  // Where a subscription belongs. Any type other than the first two is stored as a resource subscription.
  function PathOf(s: Subscription): Path {
    if s.typ == TYPE_DEVICES then DevicesPath(s.linkedCloudID, s.linkedAccountID)
    else if s.typ == TYPE_DEVICE then DevicePath(s.linkedCloudID, s.linkedAccountID, s.deviceID)
    else ResourcePath(s.linkedCloudID, s.linkedAccountID, s.deviceID, s.href)
  }

  ghost predicate HasAccount(t: Tree, cloud: string, account: string) {
    cloud in t && account in t[cloud].accounts
  }

  ghost function DeviceSlot(d: DeviceTree, p: Path): Option<Subscription>
    requires !p.DevicesPath?
  {
    if p.DevicePath? then d.slot
    else if p.href in d.resources then d.resources[p.href] else None
  }

  ghost function AccountSlot(a: AccountTree, p: Path): Option<Subscription> {
    if p.DevicesPath? then a.slot
    else if p.device in a.devices then DeviceSlot(a.devices[p.device], p) else None
  }

  ghost function SlotAt(t: Tree, p: Path): Option<Subscription> {
    if HasAccount(t, p.cloud, p.account) then AccountSlot(t[p.cloud].accounts[p.account], p) else None
  }

  ghost function DevicePut(d: DeviceTree, p: Path, v: Option<Subscription>): DeviceTree
    requires !p.DevicesPath?
  {
    if p.DevicePath? then d.(slot := v) else d.(resources := d.resources[p.href := v])
  }

  // Creates the device and the resource node on the way when they are missing.
  ghost function AccountPut(a: AccountTree, p: Path, v: Option<Subscription>): AccountTree {
    if p.DevicesPath? then a.(slot := v)
    else
      var d := if p.device in a.devices then a.devices[p.device] else DeviceTree(None, map[]);
      a.(devices := a.devices[p.device := DevicePut(d, p, v)])
  }

  ghost function WithAccount(t: Tree, cloud: string, account: string, a: AccountTree): Tree
    requires cloud in t
  {
    t[cloud := t[cloud].(accounts := t[cloud].accounts[account := a])]
  }

  ghost function Put(t: Tree, p: Path, v: Option<Subscription>): Tree
    requires HasAccount(t, p.cloud, p.account)
  {
    WithAccount(t, p.cloud, p.account, AccountPut(t[p.cloud].accounts[p.account], p, v))
  }

  lemma PutGet(t: Tree, p: Path, v: Option<Subscription>, q: Path)
    requires HasAccount(t, p.cloud, p.account)
    ensures SlotAt(Put(t, p, v), q) == if q == p then v else SlotAt(t, q)
  {
  }

  // ---- Single-subscription operations ------------------------------------------------------------

  ghost function DataAt(t: Tree, cloud: string, account: string, s: Subscription): SubscriptionData
    requires HasAccount(t, cloud, account)
  {
    SubscriptionData(t[cloud].accounts[account].account, t[cloud].cloud, s)
  }

  // The new state, the data handed back and the "found" flag. The dangling branch, whose account is gone,
  // drops the index entry but still answers "found", with empty data.
  ghost function LoadSubscription(st: CacheState, id: string): (CacheState, SubscriptionData, bool) {
    if id !in st.index then (st, NO_DATA, false)
    else
      var s := st.index[id];
      if HasAccount(st.clouds, s.linkedCloudID, s.linkedAccountID)
      then (st, DataAt(st.clouds, s.linkedCloudID, s.linkedAccountID, s), true)
      else (st.(index := st.index - {s.id}), NO_DATA, true)
  }

  datatype Stored = Stored(data: SubscriptionData, loaded: bool) | AccountNotFound

  ghost function LoadOrCreateSubscription(st: CacheState, sub: Subscription): (CacheState, Stored) {
    var (st0, data, ok) := LoadSubscription(st, sub.id);
    if ok then (st0, Stored(data, true))
    else if !HasAccount(st0.clouds, sub.linkedCloudID, sub.linkedAccountID) then (st0, AccountNotFound)
    else
      var p := PathOf(sub);
      match SlotAt(st0.clouds, p)
      case Some(holder) => (st0, Stored(DataAt(st0.clouds, sub.linkedCloudID, sub.linkedAccountID, holder), true))
      case None =>
        (CacheState(Put(st0.clouds, p, Some(sub)), st0.index[sub.id := sub]),
         Stored(DataAt(st0.clouds, sub.linkedCloudID, sub.linkedAccountID, sub), false))
  }

  ghost function PullOutSubscription(st: CacheState, id: string): (CacheState, SubscriptionData, bool) {
    if id !in st.index then (st, NO_DATA, false)
    else
      var s := st.index[id];
      var st0 := st.(index := st.index - {id});
      if !HasAccount(st.clouds, s.linkedCloudID, s.linkedAccountID) then (st0, NO_DATA, false)
      else
        match SlotAt(st.clouds, PathOf(s))
        case Some(holder) =>
          if holder.id == s.id then
            (st0.(clouds := Put(st.clouds, PathOf(s), None)),
             DataAt(st.clouds, s.linkedCloudID, s.linkedAccountID, holder), true)
          else (st0, NO_DATA, false)
        case None => (st0, NO_DATA, false)
  }

  // ---- Clouds and accounts -----------------------------------------------------------------------

  ghost function LoadOrCreateCloud(st: CacheState, cloud: LinkedCloud): (CacheState, LinkedCloud, bool) {
    if cloud.id in st.clouds then (st, st.clouds[cloud.id].cloud, true)
    else (st.(clouds := st.clouds[cloud.id := CloudTree(cloud, map[])]), cloud, false)
  }

  // The account in the cache, whether it was there before, and whether its cloud exists at all.
  ghost function LoadOrCreateLinkedAccount(st: CacheState, acc: LinkedAccount): (CacheState, LinkedAccount, bool, bool) {
    if acc.linkedCloudID !in st.clouds then (st, NO_ACCOUNT, false, false)
    else if acc.id in st.clouds[acc.linkedCloudID].accounts
    then (st, st.clouds[acc.linkedCloudID].accounts[acc.id].account, true, true)
    else (st.(clouds := WithAccount(st.clouds, acc.linkedCloudID, acc.id, AccountTree(acc, None, map[]))), acc, false, true)
  }

  ghost function UpdateLinkedAccount(st: CacheState, acc: LinkedAccount): (CacheState, bool) {
    if !HasAccount(st.clouds, acc.linkedCloudID, acc.id) then (st, false)
    else
      var a := st.clouds[acc.linkedCloudID].accounts[acc.id];
      (st.(clouds := WithAccount(st.clouds, acc.linkedCloudID, acc.id, a.(account := acc))), true)
  }

  // ---- Removing whole subtrees -------------------------------------------------------------------

  // The subtree named by a PullOut call.
  datatype Scope =
    | CloudScope(cloud: string)
    | AccountScope(cloud: string, account: string)
    | DeviceScope(cloud: string, account: string, device: string)
    | ResourceScope(cloud: string, account: string, device: string, href: string)

  predicate Covers(sc: Scope, p: Path) {
    match sc
    case CloudScope(c) => p.cloud == c
    case AccountScope(c, a) => p.cloud == c && p.account == a
    case DeviceScope(c, a, d) => p.cloud == c && p.account == a && !p.DevicesPath? && p.device == d
    case ResourceScope(c, a, d, h) => p == ResourcePath(c, a, d, h)
  }

  ghost predicate Present(t: Tree, sc: Scope) {
    match sc
    case CloudScope(c) => c in t
    case AccountScope(c, a) => HasAccount(t, c, a)
    case DeviceScope(c, a, d) => HasAccount(t, c, a) && d in t[c].accounts[a].devices
    case ResourceScope(c, a, d, h) =>
      HasAccount(t, c, a) && d in t[c].accounts[a].devices && h in t[c].accounts[a].devices[d].resources
  }

  ghost function SlotIds(slot: Option<Subscription>): set<string> {
    if slot.Some? then {slot.value.id} else {}
  }

  ghost function DeviceIds(d: DeviceTree): set<string> {
    SlotIds(d.slot) + set h, i | h in d.resources && i in SlotIds(d.resources[h]) :: i
  }

  ghost function AccountIds(a: AccountTree): set<string> {
    SlotIds(a.slot) + set d, i | d in a.devices && i in DeviceIds(a.devices[d]) :: i
  }

  ghost function CloudIds(c: CloudTree): set<string> {
    set a, i | a in c.accounts && i in AccountIds(c.accounts[a]) :: i
  }

  lemma DeviceIdsParts(d: DeviceTree)
    ensures SlotIds(d.slot) <= DeviceIds(d)
    ensures forall h :: h in d.resources ==> SlotIds(d.resources[h]) <= DeviceIds(d)
  {
  }

  lemma DeviceIdsAll(d: DeviceTree, s: set<string>)
    requires SlotIds(d.slot) <= s <= DeviceIds(d)
    requires forall h :: h in d.resources ==> SlotIds(d.resources[h]) <= s
    ensures s == DeviceIds(d)
  {
  }

  lemma AccountIdsParts(a: AccountTree)
    ensures SlotIds(a.slot) <= AccountIds(a)
    ensures forall d :: d in a.devices ==> DeviceIds(a.devices[d]) <= AccountIds(a)
  {
  }

  lemma AccountIdsAll(a: AccountTree, s: set<string>)
    requires SlotIds(a.slot) <= s <= AccountIds(a)
    requires forall d :: d in a.devices ==> DeviceIds(a.devices[d]) <= s
    ensures s == AccountIds(a)
  {
  }

  lemma CloudIdsParts(c: CloudTree)
    ensures forall a :: a in c.accounts ==> AccountIds(c.accounts[a]) <= CloudIds(c)
  {
  }

  lemma CloudIdsAll(c: CloudTree, s: set<string>)
    requires s <= CloudIds(c)
    requires forall a :: a in c.accounts ==> AccountIds(c.accounts[a]) <= s
    ensures s == CloudIds(c)
  {
  }

  // The IDs subscribed inside a subtree.
  ghost function Ids(t: Tree, sc: Scope): set<string>
    requires Present(t, sc)
  {
    match sc
    case CloudScope(c) => CloudIds(t[c])
    case AccountScope(c, a) => AccountIds(t[c].accounts[a])
    case DeviceScope(c, a, d) => DeviceIds(t[c].accounts[a].devices[d])
    case ResourceScope(c, a, d, h) => SlotIds(t[c].accounts[a].devices[d].resources[h])
  }

  ghost function WithoutDevice(a: AccountTree, d: string): AccountTree {
    a.(devices := a.devices - {d})
  }

  ghost function WithoutResource(a: AccountTree, d: string, h: string): AccountTree
    requires d in a.devices
  {
    a.(devices := a.devices[d := a.devices[d].(resources := a.devices[d].resources - {h})])
  }

  ghost function Prune(t: Tree, sc: Scope): Tree
    requires Present(t, sc)
  {
    match sc
    case CloudScope(c) => t - {c}
    case AccountScope(c, a) => t[c := t[c].(accounts := t[c].accounts - {a})]
    case DeviceScope(c, a, d) => WithAccount(t, c, a, WithoutDevice(t[c].accounts[a], d))
    case ResourceScope(c, a, d, h) => WithAccount(t, c, a, WithoutResource(t[c].accounts[a], d, h))
  }

  ghost function PullOut(st: CacheState, sc: Scope): CacheState {
    if Present(st.clouds, sc) then CacheState(Prune(st.clouds, sc), st.index - Ids(st.clouds, sc)) else st
  }
}
