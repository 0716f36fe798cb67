/**
 * The connector's store: the cache paired with a database of clouds and accounts, and the cache a restart
 * rebuilds from that database. Subscriptions are not persisted.
 */
module Store {
  import opened Records
  import opened CacheTree
  import opened CacheLaws
  import opened CacheObjects

  datatype StoreState = StoreState(cache: CacheState, clouds: map<string, LinkedCloud>, accounts: map<string, LinkedAccount>)

  const EMPTY_STORE := StoreState(EMPTY_CACHE, map[], map[])

  predicate ValidCloud(c: LinkedCloud) {
    && c.id != "" && c.endpointURL != "" && c.oauth.clientID != "" && c.oauth.clientSecret != ""
    && c.oauth.authURL != "" && c.oauth.tokenURL != ""
  }

  predicate ValidAccount(a: LinkedAccount) {
    && a.id != "" && a.userID != "" && a.linkedCloudID != ""
    && (a.origin.accessToken != "" || a.origin.refreshToken != "")
    && (a.target.accessToken != "" || a.target.refreshToken != "")
  }

  // ---- Operations ------------------------------------------------------------------------------------

  // Database first, then cache; the flag is false when an error is returned.
  ghost function StoreCloud(st: StoreState, cloud: LinkedCloud): (StoreState, bool) {
    if !ValidCloud(cloud) || cloud.id in st.clouds then (st, false)
    else (StoreState(LoadOrCreateCloud(st.cache, cloud).0, st.clouds[cloud.id := cloud], st.accounts), true)
  }

  ghost function StoreAccount(st: StoreState, account: LinkedAccount): (StoreState, bool) {
    if !ValidAccount(account) || account.id in st.accounts then (st, false)
    else
      var r := LoadOrCreateLinkedAccount(st.cache, account);
      (StoreState(r.0, st.clouds, st.accounts[account.id := account]), r.3)
  }

  ghost function ReplaceAccount(st: StoreState, account: LinkedAccount): (StoreState, bool) {
    if !ValidAccount(account) || account.id !in st.accounts then (st, false)
    else
      var r := UpdateLinkedAccount(st.cache, account);
      (StoreState(r.0, st.clouds, st.accounts[account.id := account]), r.1)
  }

  // Cache first, then database.
  ghost function RemoveCloud(st: StoreState, id: string): (StoreState, bool) {
    if id !in st.cache.clouds then (st, false)
    else if id == "" || id !in st.clouds then (st.(cache := PullOut(st.cache, CloudScope(id))), false)
    else (StoreState(PullOut(st.cache, CloudScope(id)), st.clouds - {id}, st.accounts), true)
  }

  ghost function RemoveAccount(st: StoreState, cloudID: string, id: string): (StoreState, bool) {
    if !HasAccount(st.cache.clouds, cloudID, id) then (st, false)
    else if id == "" || id !in st.accounts then (st.(cache := PullOut(st.cache, AccountScope(cloudID, id))), false)
    else (StoreState(PullOut(st.cache, AccountScope(cloudID, id)), st.clouds, st.accounts - {id}), true)
  }

  // ---- What survives a restart -----------------------------------------------------------------------

  datatype CloudAccounts = CloudAccounts(cloud: LinkedCloud, accounts: map<string, LinkedAccount>)

  // The clouds and accounts of a cache, without subscriptions.
  ghost function Skeleton(t: Tree): map<string, CloudAccounts> {
    map c | c in t :: CloudAccounts(t[c].cloud, map a | a in t[c].accounts :: t[c].accounts[a].account)
  }

  // What the loaders make of the database when they have read the given records: accounts whose cloud is gone
  // are skipped.
  ghost function Loaded(clouds: map<string, LinkedCloud>, accounts: map<string, LinkedAccount>): map<string, CloudAccounts> {
    map c | c in clouds :: CloudAccounts(clouds[c], map a | a in accounts && accounts[a].linkedCloudID == c :: accounts[a])
  }

  // Records under their own IDs, as the database accepts them.
  ghost predicate DbKeyed(st: StoreState) {
    && (forall c :: c in st.clouds ==> st.clouds[c].id == c && ValidCloud(st.clouds[c]))
    && (forall a :: a in st.accounts ==> st.accounts[a].id == a && ValidAccount(st.accounts[a]))
  }

  ghost predicate Keyed(st: StoreState) {
    Consistent(st.cache) && DbKeyed(st)
  }

  ghost predicate Recoverable(st: StoreState) {
    Skeleton(st.cache.clouds) == Loaded(st.clouds, st.accounts)
  }

  // An account left behind by a removed cloud.
  ghost predicate Referenced(st: StoreState, cloudID: string) {
    exists a :: a in st.accounts && st.accounts[a].linkedCloudID == cloudID
  }

  ghost predicate InCloud(accounts: map<string, LinkedAccount>, c: string, a: string) {
    a in accounts && accounts[a].linkedCloudID == c
  }

  // What the cache operations do to clouds and accounts, slots aside.
  ghost predicate SameClouds(t: Tree, t': Tree) {
    forall c :: (c in t <==> c in t') && (c in t ==> t[c].cloud == t'[c].cloud)
  }

  // The account record at (c, a), if there is one.
  ghost function RecordAt(t: Tree, c: string, a: string): Option<LinkedAccount> {
    if HasAccount(t, c, a) then Some(t[c].accounts[a].account) else None
  }

  ghost function DbRecordAt(clouds: map<string, LinkedCloud>, accounts: map<string, LinkedAccount>, c: string, a: string): Option<LinkedAccount> {
    if c in clouds && InCloud(accounts, c, a) then Some(accounts[a]) else None
  }

  // The account record at (c, a) of a rebuilt or a live skeleton.
  ghost function At(m: map<string, CloudAccounts>, c: string, a: string): Option<LinkedAccount> {
    if c in m && a in m[c].accounts then Some(m[c].accounts[a]) else None
  }

  lemma SkeletonRecords(t: Tree)
    ensures Skeleton(t).Keys == t.Keys && (forall c :: c in t ==> Skeleton(t)[c].cloud == t[c].cloud)
    ensures forall c, a :: At(Skeleton(t), c, a) == RecordAt(t, c, a)
  {
  }

  lemma LoadedRecords(clouds: map<string, LinkedCloud>, accounts: map<string, LinkedAccount>)
    ensures Loaded(clouds, accounts).Keys == clouds.Keys && (forall c :: c in clouds ==> Loaded(clouds, accounts)[c].cloud == clouds[c])
    ensures forall c, a :: At(Loaded(clouds, accounts), c, a) == DbRecordAt(clouds, accounts, c, a)
  {
  }

  lemma SameAccounts(x: map<string, CloudAccounts>, y: map<string, CloudAccounts>, c: string)
    requires c in x && c in y && forall a :: At(x, c, a) == At(y, c, a)
    ensures x[c].accounts == y[c].accounts
  {
    forall a ensures a in x[c].accounts <==> a in y[c].accounts
      ensures a in x[c].accounts ==> x[c].accounts[a] == y[c].accounts[a]
    {
      assert At(x, c, a) == At(y, c, a);
    }
  }

  lemma EqualByRecords(x: map<string, CloudAccounts>, y: map<string, CloudAccounts>)
    ensures x == y <==> x.Keys == y.Keys && (forall c :: c in x && c in y ==> x[c].cloud == y[c].cloud) && forall c, a :: At(x, c, a) == At(y, c, a)
  {
    if x.Keys == y.Keys && (forall c :: c in x && c in y ==> x[c].cloud == y[c].cloud) && (forall c, a :: At(x, c, a) == At(y, c, a)) {
      hide At;
      forall c | c in x ensures c in y && x[c] == y[c] {
        assert c in x.Keys;
        SameAccounts(x, y, c);
      }
    }
  }

  lemma RecordsAfterCreateCloud(st: CacheState, cloud: LinkedCloud)
    requires cloud.id !in st.clouds
    ensures var t' := LoadOrCreateCloud(st, cloud).0.clouds;
            && t'.Keys == st.clouds.Keys + {cloud.id} && t'[cloud.id].cloud == cloud
            && (forall c :: c in st.clouds ==> t'[c].cloud == st.clouds[c].cloud)
            && (forall c, a :: RecordAt(t', c, a) == RecordAt(st.clouds, c, a))
  {
  }

  lemma RecordsAfterCreateAccount(st: CacheState, account: LinkedAccount)
    ensures var t' := LoadOrCreateLinkedAccount(st, account).0.clouds;
            && SameClouds(st.clouds, t')
            && (forall c, a :: RecordAt(t', c, a) ==
                  if c == account.linkedCloudID && a == account.id && c in st.clouds && RecordAt(st.clouds, c, a).None?
                  then Some(account) else RecordAt(st.clouds, c, a))
  {
  }

  lemma RecordsAfterUpdateAccount(st: CacheState, account: LinkedAccount)
    ensures var t' := UpdateLinkedAccount(st, account).0.clouds;
            && SameClouds(st.clouds, t')
            && (forall c, a :: RecordAt(t', c, a) ==
                  if c == account.linkedCloudID && a == account.id && RecordAt(st.clouds, c, a).Some?
                  then Some(account) else RecordAt(st.clouds, c, a))
  {
  }

  lemma RecordsAfterRemoveCloud(st: CacheState, id: string)
    requires id in st.clouds
    ensures var t' := PullOut(st, CloudScope(id)).clouds;
            && t'.Keys == st.clouds.Keys - {id}
            && (forall c :: c in t' ==> t'[c].cloud == st.clouds[c].cloud)
            && (forall c, a :: RecordAt(t', c, a) == if c == id then None else RecordAt(st.clouds, c, a))
  {
  }

  lemma RecordsAfterRemoveAccount(st: CacheState, cloudID: string, id: string)
    requires HasAccount(st.clouds, cloudID, id)
    ensures var t' := PullOut(st, AccountScope(cloudID, id)).clouds;
            && SameClouds(st.clouds, t')
            && (forall c, a :: RecordAt(t', c, a) == if c == cloudID && a == id then None else RecordAt(st.clouds, c, a))
  {
  }

  lemma RecoverableByRecords(st: StoreState)
    ensures Recoverable(st) <==>
            && (forall c :: (c in st.cache.clouds <==> c in st.clouds) && (c in st.clouds ==> st.cache.clouds[c].cloud == st.clouds[c]))
            && (forall c, a :: RecordAt(st.cache.clouds, c, a) == DbRecordAt(st.clouds, st.accounts, c, a))
  {
    hide Skeleton, Loaded, At, RecordAt, DbRecordAt;
    var t := st.cache.clouds;
    SkeletonRecords(t);
    LoadedRecords(st.clouds, st.accounts);
    EqualByRecords(Skeleton(t), Loaded(st.clouds, st.accounts));
    assert t.Keys == st.clouds.Keys <==> forall c :: c in t <==> c in st.clouds;
  }

  // Creating a cloud keeps the state recoverable exactly when its ID is not one that an orphaned account in
  // the database still refers to.
  lemma CreateCloudRecovers(st: StoreState, cloud: LinkedCloud)
    requires Keyed(st) && Recoverable(st)
    requires StoreCloud(st, cloud).1
    ensures var st' := StoreCloud(st, cloud).0;
            Recoverable(st') <==> !Referenced(st, cloud.id)
  {
    hide Recoverable, Keyed, RecordAt, LoadOrCreateCloud;
    var st' := StoreCloud(st, cloud).0;
    RecoverableByRecords(st);
    RecordsAfterCreateCloud(st.cache, cloud);
    if a :| a in st.accounts && st.accounts[a].linkedCloudID == cloud.id {
      assert DbRecordAt(st.clouds, st.accounts, cloud.id, a) == RecordAt(st'.cache.clouds, cloud.id, a) == None;
      assert DbRecordAt(st'.clouds, st'.accounts, cloud.id, a).Some?;
    } else {
      forall c, a ensures RecordAt(st'.cache.clouds, c, a) == DbRecordAt(st'.clouds, st'.accounts, c, a) {
        assert RecordAt(st.cache.clouds, c, a) == DbRecordAt(st.clouds, st.accounts, c, a);
      }
    }
    RecoverableByRecords(st');
  }

  lemma CreateAccountRecovers(st: StoreState, account: LinkedAccount)
    requires Keyed(st) && Recoverable(st)
    ensures Recoverable(StoreAccount(st, account).0)
  {
    hide Recoverable, RecordAt, LoadOrCreateLinkedAccount, Consistent;
    var st' := StoreAccount(st, account).0;
    RecoverableByRecords(st);
    RecordsAfterCreateAccount(st.cache, account);
    forall c, a ensures RecordAt(st'.cache.clouds, c, a) == DbRecordAt(st'.clouds, st'.accounts, c, a) {
      assert RecordAt(st.cache.clouds, c, a) == DbRecordAt(st.clouds, st.accounts, c, a);
    }
    RecoverableByRecords(st');
  }

  lemma DbRecordsAfterUpdate(clouds: map<string, LinkedCloud>, accounts: map<string, LinkedAccount>, account: LinkedAccount)
    ensures forall c, a :: DbRecordAt(clouds, accounts[account.id := account], c, a) ==
                           if a != account.id then DbRecordAt(clouds, accounts, c, a)
                           else if c in clouds && c == account.linkedCloudID then Some(account) else None
  {
    var accounts' := accounts[account.id := account];
    forall c, a ensures DbRecordAt(clouds, accounts', c, a) ==
                        if a != account.id then DbRecordAt(clouds, accounts, c, a)
                        else if c in clouds && c == account.linkedCloudID then Some(account) else None
    {
      assert a != account.id ==> (a in accounts' <==> a in accounts);
    }
  }

  lemma DbRecordOf(clouds: map<string, LinkedCloud>, accounts: map<string, LinkedAccount>, id: string)
    requires id in accounts
    ensures forall c :: DbRecordAt(clouds, accounts, c, id).Some? <==> c in clouds && c == accounts[id].linkedCloudID
  {
  }

  // Updating an account keeps the state recoverable exactly when the record stays with its cloud, or neither
  // the old nor the new cloud exists any more.
  lemma UpdateAccountRecovers(st: StoreState, account: LinkedAccount)
    requires Keyed(st) && Recoverable(st)
    requires ValidAccount(account) && account.id in st.accounts
    ensures var st' := ReplaceAccount(st, account).0;
            var was := st.accounts[account.id].linkedCloudID;
            Recoverable(st') <==> account.linkedCloudID == was || (account.linkedCloudID !in st.clouds && was !in st.clouds)
  {
    hide Recoverable, Keyed, RecordAt, DbRecordAt, UpdateLinkedAccount, ValidAccount;
    var st' := ReplaceAccount(st, account).0;
    var id, k, was := account.id, account.linkedCloudID, st.accounts[account.id].linkedCloudID;
    RecoverableByRecords(st);
    RecordsAfterUpdateAccount(st.cache, account);
    DbRecordsAfterUpdate(st.clouds, st.accounts, account);
    DbRecordOf(st.clouds, st.accounts, id);
    if !(k == was || (k !in st.clouds && was !in st.clouds)) {
      var c := if k in st.clouds then k else was;
      assert RecordAt(st.cache.clouds, c, id) == DbRecordAt(st.clouds, st.accounts, c, id);
      assert RecordAt(st'.cache.clouds, c, id) != DbRecordAt(st'.clouds, st'.accounts, c, id);
    }
    RecoverableByRecords(st');
  }

  lemma RemoveCloudRecovers(st: StoreState, id: string)
    requires Keyed(st) && Recoverable(st)
    ensures var (st', ok) := RemoveCloud(st, id);
            Recoverable(st') && (ok <==> id in st.clouds) && st'.accounts == st.accounts
  {
    hide Recoverable, RecordAt, PullOut, Consistent;
    var st' := RemoveCloud(st, id).0;
    RecoverableByRecords(st);
    if id in st.clouds {
      RecordsAfterRemoveCloud(st.cache, id);
      forall c, a ensures RecordAt(st'.cache.clouds, c, a) == DbRecordAt(st'.clouds, st'.accounts, c, a) {
        assert RecordAt(st.cache.clouds, c, a) == DbRecordAt(st.clouds, st.accounts, c, a);
      }
    }
    RecoverableByRecords(st');
  }

  lemma RemoveAccountRecovers(st: StoreState, cloudID: string, id: string)
    requires Keyed(st) && Recoverable(st)
    ensures var (st', ok) := RemoveAccount(st, cloudID, id);
            Recoverable(st') && (ok <==> HasAccount(st.cache.clouds, cloudID, id))
  {
    hide Recoverable, PullOut, Consistent;
    var st' := RemoveAccount(st, cloudID, id).0;
    RecoverableByRecords(st);
    assert RecordAt(st.cache.clouds, cloudID, id) == DbRecordAt(st.clouds, st.accounts, cloudID, id);
    if HasAccount(st.cache.clouds, cloudID, id) {
      RecordsAfterRemoveAccount(st.cache, cloudID, id);
      forall c, a ensures RecordAt(st'.cache.clouds, c, a) == DbRecordAt(st'.clouds, st'.accounts, c, a) {
        assert RecordAt(st.cache.clouds, c, a) == DbRecordAt(st.clouds, st.accounts, c, a);
      }
    }
    RecoverableByRecords(st');
  }

  // ---- Every run -------------------------------------------------------------------------------------

  datatype StoreOp =
    | OpCreateCloud(cloud: LinkedCloud)
    | OpCreateAccount(account: LinkedAccount)
    | OpUpdateAccount(account: LinkedAccount)
    | OpRemoveCloud(cloudID: string)
    | OpRemoveAccount(cloudID: string, accountID: string)
    | OpSlots(op: SlotOp)

  // The operations the store passes straight to the cache: they touch subscriptions, devices and resources only.
  predicate TouchesSlotsOnly(op: Op) {
    || op.LoadSub? || op.CreateSub? || op.PullOutSub?
    || (op.PullOutSubtree? && (op.scope.DeviceScope? || op.scope.ResourceScope?))
  }

  type SlotOp = op: Op | TouchesSlotsOnly(op) witness LoadSub("")

  ghost function Apply(st: StoreState, op: StoreOp): StoreState {
    match op
    case OpCreateCloud(cloud) => StoreCloud(st, cloud).0
    case OpCreateAccount(account) => StoreAccount(st, account).0
    case OpUpdateAccount(account) => ReplaceAccount(st, account).0
    case OpRemoveCloud(c) => RemoveCloud(st, c).0
    case OpRemoveAccount(c, a) => RemoveAccount(st, c, a).0
    case OpSlots(op) => st.(cache := CacheLaws.Apply(st.cache, op))
  }

  // What a caller has to see to before the call: a cloud that will be created is not one that orphaned
  // accounts still refer to, and an account that will be updated stays with its cloud, or moves between clouds
  // that do not exist.
  ghost predicate Safe(st: StoreState, op: StoreOp) {
    match op
    case OpCreateCloud(cloud) => ValidCloud(cloud) && cloud.id !in st.clouds ==> !Referenced(st, cloud.id)
    case OpUpdateAccount(account) =>
      ValidAccount(account) && account.id in st.accounts ==>
        var was := st.accounts[account.id].linkedCloudID;
        account.linkedCloudID == was || (account.linkedCloudID !in st.clouds && was !in st.clouds)
    case _ => true
  }

  ghost function RunStore(st: StoreState, ops: seq<StoreOp>): StoreState
    decreases |ops|
  {
    if ops == [] then st else RunStore(Apply(st, ops[0]), ops[1..])
  }

  ghost predicate SafeRun(st: StoreState, ops: seq<StoreOp>)
    decreases |ops|
  {
    ops != [] ==> Safe(st, ops[0]) && SafeRun(Apply(st, ops[0]), ops[1..])
  }

  lemma WithAccountKeepsRecords(t: Tree, c: string, a: string, acc: AccountTree)
    requires HasAccount(t, c, a) && acc.account == t[c].accounts[a].account
    ensures var t' := WithAccount(t, c, a, acc);
            t'.Keys == t.Keys && SameClouds(t, t') && forall d, b :: RecordAt(t', d, b) == RecordAt(t, d, b)
  {
  }

  lemma WithAccountKeepsSkeleton(t: Tree, c: string, a: string, acc: AccountTree)
    requires HasAccount(t, c, a) && acc.account == t[c].accounts[a].account
    ensures Skeleton(WithAccount(t, c, a, acc)) == Skeleton(t)
  {
    hide Skeleton, WithAccount, At, RecordAt;
    var t' := WithAccount(t, c, a, acc);
    WithAccountKeepsRecords(t, c, a, acc);
    SkeletonRecords(t);
    SkeletonRecords(t');
    EqualByRecords(Skeleton(t'), Skeleton(t));
  }

  lemma PutKeepsSkeleton(t: Tree, p: Path, v: Option<Subscription>)
    requires HasAccount(t, p.cloud, p.account)
    ensures Skeleton(Put(t, p, v)) == Skeleton(t)
  {
    hide Skeleton, AccountPut, WithAccount;
    var a := t[p.cloud].accounts[p.account];
    AccountPutKeepsRecord(a, p, v);
    WithAccountKeepsSkeleton(t, p.cloud, p.account, AccountPut(a, p, v));
  }

  lemma AccountPutKeepsRecord(a: AccountTree, p: Path, v: Option<Subscription>)
    ensures AccountPut(a, p, v).account == a.account
  {
  }

  lemma CreateSubKeepsSkeleton(st: CacheState, sub: Subscription)
    ensures Skeleton(LoadOrCreateSubscription(st, sub).0.clouds) == Skeleton(st.clouds)
  {
    hide Skeleton, Put, SlotAt;
    if HasAccount(st.clouds, sub.linkedCloudID, sub.linkedAccountID) {
      PutKeepsSkeleton(st.clouds, PathOf(sub), Some(sub));
    }
  }

  lemma PullOutSubKeepsSkeleton(st: CacheState, id: string)
    ensures Skeleton(PullOutSubscription(st, id).0.clouds) == Skeleton(st.clouds)
  {
    hide Skeleton, Put, SlotAt;
    if id in st.index {
      var p := PathOf(st.index[id]);
      if HasAccount(st.clouds, p.cloud, p.account) {
        PutKeepsSkeleton(st.clouds, p, None);
      }
    }
  }

  lemma SubtreeKeepsSkeleton(st: CacheState, sc: Scope)
    requires sc.DeviceScope? || sc.ResourceScope?
    ensures Skeleton(PullOut(st, sc).clouds) == Skeleton(st.clouds)
  {
    hide Skeleton, WithAccount, Ids;
    if Present(st.clouds, sc) {
      var a := st.clouds[sc.cloud].accounts[sc.account];
      WithAccountKeepsSkeleton(st.clouds, sc.cloud, sc.account,
                               if sc.DeviceScope? then WithoutDevice(a, sc.device) else WithoutResource(a, sc.device, sc.href));
    }
  }

  lemma SlotOpsKeepSkeleton(st: CacheState, op: SlotOp)
    ensures Skeleton(CacheLaws.Apply(st, op).clouds) == Skeleton(st.clouds)
  {
    hide Skeleton, LoadOrCreateSubscription, PullOutSubscription, PullOut;
    match op
    case LoadSub(_) =>
    case CreateSub(sub) => CreateSubKeepsSkeleton(st, sub);
    case PullOutSub(id) => PullOutSubKeepsSkeleton(st, id);
    case PullOutSubtree(sc) => SubtreeKeepsSkeleton(st, sc);
  }

  // The cache operation a store operation leads to, if it gets that far.
  function CacheOp(op: StoreOp): Op {
    match op
    case OpCreateCloud(cloud) => Op.CreateCloud(cloud)
    case OpCreateAccount(account) => Op.CreateAccount(account)
    case OpUpdateAccount(account) => Op.UpdateAccount(account)
    case OpRemoveCloud(c) => PullOutSubtree(CloudScope(c))
    case OpRemoveAccount(c, a) => PullOutSubtree(AccountScope(c, a))
    case OpSlots(op) => op
  }

  lemma CacheOfApply(st: StoreState, op: StoreOp)
    ensures Apply(st, op).cache == st.cache || Apply(st, op).cache == CacheLaws.Apply(st.cache, CacheOp(op))
  {
    hide PullOut, LoadOrCreateCloud, LoadOrCreateLinkedAccount, UpdateLinkedAccount, HasAccount, ValidCloud, ValidAccount;
  }

  lemma ApplyKeepsDbKeyed(st: StoreState, op: StoreOp)
    requires DbKeyed(st)
    ensures DbKeyed(Apply(st, op))
  {
    hide PullOut, LoadOrCreateCloud, LoadOrCreateLinkedAccount, UpdateLinkedAccount, HasAccount, ValidCloud, ValidAccount, CacheLaws.Apply;
  }

  lemma ApplyKeepsKeyed(st: StoreState, op: StoreOp)
    requires Keyed(st)
    ensures Keyed(Apply(st, op))
  {
    hide Consistent, DbKeyed, Apply, CacheLaws.Apply;
    CacheOfApply(st, op);
    ApplyKeepsConsistent(st.cache, CacheOp(op));
    ApplyKeepsDbKeyed(st, op);
  }

  // One operation on a recoverable store keeps it recoverable exactly if it is safe.
  lemma SafeIsExact(st: StoreState, op: StoreOp)
    requires Keyed(st) && Recoverable(st)
    ensures Recoverable(Apply(st, op)) <==> Safe(st, op)
  {
    hide Recoverable;
    match op
    case OpCreateCloud(cloud) =>
      if StoreCloud(st, cloud).1 {
        CreateCloudRecovers(st, cloud);
      }
    case OpCreateAccount(account) => CreateAccountRecovers(st, account);
    case OpUpdateAccount(account) =>
      if ValidAccount(account) && account.id in st.accounts {
        UpdateAccountRecovers(st, account);
      }
    case OpRemoveCloud(c) => RemoveCloudRecovers(st, c);
    case OpRemoveAccount(c, a) => RemoveAccountRecovers(st, c, a);
    case OpSlots(op) => SlotOpKeepsRecoverable(st, op);
  }

  lemma SlotOpKeepsRecoverable(st: StoreState, op: SlotOp)
    requires Recoverable(st)
    ensures Recoverable(Apply(st, OpSlots(op)))
  {
    hide Skeleton, Loaded;
    SlotOpsKeepSkeleton(st.cache, op);
  }

  // A restart at any point of the run finds the clouds and accounts of the live cache.
  ghost predicate AlwaysRecoverable(st: StoreState, ops: seq<StoreOp>) {
    forall k :: 0 <= k <= |ops| ==> Recoverable(RunStore(st, ops[..k]))
  }

  lemma RunOfPrefix(st: StoreState, ops: seq<StoreOp>, k: nat)
    requires 0 < k <= |ops|
    ensures RunStore(st, ops[..k]) == RunStore(Apply(st, ops[0]), ops[1..][..k - 1])
  {
    assert ops[..k][1..] == ops[1..][..k - 1];
  }

  // Main result: a restart at any point of a run finds the clouds and accounts of the live cache exactly if
  // every operation of the run is safe: none reuses the ID of a removed cloud whose accounts are still in the
  // database, and none moves an account to or from an existing cloud.
  lemma {:induction false} RunIsRecoverable(st: StoreState, ops: seq<StoreOp>)
    requires Keyed(st) && Recoverable(st)
    ensures AlwaysRecoverable(st, ops) <==> SafeRun(st, ops)
    decreases |ops|
  {
    hide Recoverable, Keyed, Apply, Safe;
    if ops == [] {
      assert forall k :: 0 <= k <= |ops| ==> ops[..k] == [];
    } else {
      var st1 := Apply(st, ops[0]);
      SafeIsExact(st, ops[0]);
      ApplyKeepsKeyed(st, ops[0]);
      FirstStepOfRun(st, ops);
      if Recoverable(st1) {
        RunIsRecoverable(st1, ops[1..]);
      } else {
        assert RunStore(st1, []) == st1;
        RunOfPrefix(st, ops, 1);
        assert ops[1..][..0] == [];
        assert !Recoverable(RunStore(st, ops[..1]));
      }
    }
  }

  lemma FirstStepOfRun(st: StoreState, ops: seq<StoreOp>)
    requires ops != [] && Recoverable(st)
    ensures AlwaysRecoverable(st, ops) <==> AlwaysRecoverable(Apply(st, ops[0]), ops[1..])
  {
    hide Recoverable, Apply;
    if AlwaysRecoverable(st, ops) {
      forall k | 0 <= k <= |ops[1..]| ensures Recoverable(RunStore(Apply(st, ops[0]), ops[1..][..k])) {
        RunOfPrefix(st, ops, k + 1);
      }
    }
    if AlwaysRecoverable(Apply(st, ops[0]), ops[1..]) {
      forall k | 0 <= k <= |ops| ensures Recoverable(RunStore(st, ops[..k])) {
        if k == 0 {
          assert ops[..0] == [];
        } else {
          RunOfPrefix(st, ops, k);
        }
      }
    }
  }

  lemma RunFromEmptyIsRecoverable(ops: seq<StoreOp>)
    ensures AlwaysRecoverable(EMPTY_STORE, ops) <==> SafeRun(EMPTY_STORE, ops)
  {
    assert Skeleton(map[]) == map[] == Loaded(map[], map[]);
    RunIsRecoverable(EMPTY_STORE, ops);
  }

  // The case that has to be excluded: a cloud created again under the ID of a removed one gets the old
  // cloud's accounts back at the next start, though the live cache does not have them.
  lemma ReusedCloudIdIsNotRecoverable(cloud: LinkedCloud, account: LinkedAccount)
    requires ValidCloud(cloud) && ValidAccount(account) && account.linkedCloudID == cloud.id
    ensures !Recoverable(RunStore(EMPTY_STORE, [OpCreateCloud(cloud), OpCreateAccount(account), OpRemoveCloud(cloud.id), OpCreateCloud(cloud)]))
  {
    var st1 := Apply(EMPTY_STORE, OpCreateCloud(cloud));
    var st2 := Apply(st1, OpCreateAccount(account));
    var st3 := Apply(st2, OpRemoveCloud(cloud.id));
    var st4 := Apply(st3, OpCreateCloud(cloud));
    var ops := [OpCreateCloud(cloud), OpCreateAccount(account), OpRemoveCloud(cloud.id), OpCreateCloud(cloud)];
    assert RunStore(EMPTY_STORE, ops) == RunStore(st1, ops[1..]);
    assert ops[1..] == [OpCreateAccount(account), OpRemoveCloud(cloud.id), OpCreateCloud(cloud)];
    assert ops[1..][1..] == [OpRemoveCloud(cloud.id), OpCreateCloud(cloud)];
    assert RunStore(st1, ops[1..]) == RunStore(st2, ops[1..][1..]) == RunStore(st3, ops[1..][1..][1..]);
    assert ops[1..][1..][1..] == [OpCreateCloud(cloud)];
    assert RunStore(st3, [OpCreateCloud(cloud)]) == RunStore(st4, []) == st4;
    assert DbRecordAt(st4.clouds, st4.accounts, cloud.id, account.id) != RecordAt(st4.cache.clouds, cloud.id, account.id);
    RecoverableByRecords(st4);
  }

  // ---- The loaders -----------------------------------------------------------------------------------

  ghost function LoadClouds(st: CacheState, s: seq<LinkedCloud>): CacheState {
    if s == [] then st else LoadOrCreateCloud(LoadClouds(st, s[..|s| - 1]), s[|s| - 1]).0
  }

  // An account whose cloud is missing is reported and skipped.
  ghost function LoadAccounts(st: CacheState, s: seq<LinkedAccount>): CacheState {
    if s == [] then st else LoadOrCreateLinkedAccount(LoadAccounts(st, s[..|s| - 1]), s[|s| - 1]).0
  }

  // The records of a collection, each under its ID, in some order.
  ghost predicate CloudCursor(s: seq<LinkedCloud>, clouds: map<string, LinkedCloud>) {
    && (forall x :: x in s ==> x.id in clouds && clouds[x.id] == x)
    && (forall c :: c in clouds ==> clouds[c] in s)
  }

  ghost predicate AccountCursor(s: seq<LinkedAccount>, accounts: map<string, LinkedAccount>) {
    && (forall x :: x in s ==> x.id in accounts && accounts[x.id] == x)
    && (forall a :: a in accounts ==> accounts[a] in s)
  }

  lemma {:induction false} CloudsAfterLoading(s: seq<LinkedCloud>)
    requires forall x, y :: x in s && y in s && x.id == y.id ==> x == y
    ensures var st := LoadClouds(EMPTY_CACHE, s);
            && st.index == map[]
            && (forall x :: x in s ==> x.id in st.clouds && st.clouds[x.id].cloud == x)
            && (forall c :: c in st.clouds ==> st.clouds[c].cloud in s && st.clouds[c].cloud.id == c)
            && (forall c, a :: RecordAt(st.clouds, c, a) == None)
  {
    if s != [] {
      var t, x := s[..|s| - 1], s[|s| - 1];
      assert s == t + [x];
      CloudsAfterLoading(t);
      var st := LoadClouds(EMPTY_CACHE, t);
      if x.id !in st.clouds {
        RecordsAfterCreateCloud(st, x);
      }
    }
  }

  // The tree holds exactly the records of `s` whose cloud is there, on top of the clouds of `st`.
  ghost predicate HoldsRecords(st: CacheState, s: seq<LinkedAccount>, t: Tree) {
    && SameClouds(st.clouds, t)
    && (forall x :: x in s && x.linkedCloudID in st.clouds ==> RecordAt(t, x.linkedCloudID, x.id) == Some(x))
    && (forall c, a | RecordAt(t, c, a).Some? ::
          var x := RecordAt(t, c, a).value; x in s && x.id == a && x.linkedCloudID == c)
  }

  lemma OneMoreAccount(st: CacheState, s: seq<LinkedAccount>, x: LinkedAccount, st1: CacheState)
    requires HoldsRecords(st, s, st1.clouds)
    requires forall y :: y in s && y.id == x.id ==> y == x
    ensures HoldsRecords(st, s + [x], LoadOrCreateLinkedAccount(st1, x).0.clouds)
  {
    hide RecordAt, LoadOrCreateLinkedAccount;
    RecordsAfterCreateAccount(st1, x);
  }

  lemma {:induction false} AccountsAfterLoading(st: CacheState, s: seq<LinkedAccount>)
    requires forall x, y :: x in s && y in s && x.id == y.id ==> x == y
    requires forall c, a :: RecordAt(st.clouds, c, a) == None
    ensures HoldsRecords(st, s, LoadAccounts(st, s).clouds)
  {
    if s != [] {
      hide RecordAt, LoadOrCreateLinkedAccount, HoldsRecords;
      var t, x := s[..|s| - 1], s[|s| - 1];
      assert s == t + [x];
      AccountsAfterLoading(st, t);
      OneMoreAccount(st, t, x, LoadAccounts(st, t));
    }
  }

  lemma RecordNeedsCloud(t: Tree)
    ensures forall c, a :: RecordAt(t, c, a).Some? ==> c in t
  {
  }

  // Main result: whatever the order the database hands its records out in, the loaders rebuild the same
  // clouds and accounts, namely those of Loaded.
  lemma LoadersRebuild(cs: seq<LinkedCloud>, accs: seq<LinkedAccount>, clouds: map<string, LinkedCloud>, accounts: map<string, LinkedAccount>)
    requires CloudCursor(cs, clouds) && AccountCursor(accs, accounts)
    requires (forall c :: c in clouds ==> clouds[c].id == c) && (forall a :: a in accounts ==> accounts[a].id == a)
    ensures Skeleton(LoadAccounts(LoadClouds(EMPTY_CACHE, cs), accs).clouds) == Loaded(clouds, accounts)
  {
    hide RecordAt, Skeleton, Loaded;
    CloudsAfterLoading(cs);
    var st := LoadClouds(EMPTY_CACHE, cs);
    AccountsAfterLoading(st, accs);
    var t := LoadAccounts(st, accs);
    RecordNeedsCloud(t.clouds);
    RecoverableByRecords(StoreState(t, clouds, accounts));
  }

  method CloudLoader(cache: Cache, iter: seq<LinkedCloud>)
    requires cache.Valid()
    modifies cache, cache.Repr
    ensures cache.Valid() && fresh(cache.Repr - old(cache.Repr))
    ensures cache.State() == LoadClouds(old(cache.State()), iter)
  {
    for i := 0 to |iter|
      invariant cache.Valid() && fresh(cache.Repr - old(cache.Repr))
      invariant cache.State() == LoadClouds(old(cache.State()), iter[..i])
    {
      var _, _ := cache.LoadOrCreateCloud(iter[i]);
      assert iter[..i + 1][..i] == iter[..i];
    }
    assert iter[..|iter|] == iter;
  }

  method LinkedAccountLoader(cache: Cache, iter: seq<LinkedAccount>)
    requires cache.Valid()
    modifies cache, cache.Repr
    ensures cache.Valid() && fresh(cache.Repr - old(cache.Repr))
    ensures cache.State() == LoadAccounts(old(cache.State()), iter)
  {
    for i := 0 to |iter|
      invariant cache.Valid() && fresh(cache.Repr - old(cache.Repr))
      invariant cache.State() == LoadAccounts(old(cache.State()), iter[..i])
    {
      var _, _, _ := cache.LoadOrCreateLinkedAccount(iter[i]);
      assert iter[..i + 1][..i] == iter[..i];
    }
    assert iter[..|iter|] == iter;
  }

  // ---- The classes -----------------------------------------------------------------------------------

  // The two collections, without infrastructure failures.
  class Database {
    var clouds: map<string, LinkedCloud>
    var accounts: map<string, LinkedAccount>

    constructor ()
      ensures clouds == map[] && accounts == map[]
    {
      clouds, accounts := map[], map[];
    }

    ghost predicate Keyed()
      reads this
    {
      (forall c :: c in clouds ==> clouds[c].id == c) && (forall a :: a in accounts ==> accounts[a].id == a)
    }

    method InsertLinkedCloud(c: LinkedCloud) returns (ok: bool)
      modifies `clouds
      ensures ok == (ValidCloud(c) && c.id !in old(clouds))
      ensures clouds == if ok then old(clouds)[c.id := c] else old(clouds)
    {
      if !ValidCloud(c) || c.id in clouds {
        return false;
      }
      clouds := clouds[c.id := c];
      return true;
    }

    method RemoveLinkedCloud(id: string) returns (ok: bool)
      modifies `clouds
      ensures ok == (id != "" && id in old(clouds))
      ensures clouds == if ok then old(clouds) - {id} else old(clouds)
    {
      if id == "" || id !in clouds {
        return false;
      }
      clouds := clouds - {id};
      return true;
    }

    method InsertLinkedAccount(a: LinkedAccount) returns (ok: bool)
      modifies `accounts
      ensures ok == (ValidAccount(a) && a.id !in old(accounts))
      ensures accounts == if ok then old(accounts)[a.id := a] else old(accounts)
    {
      if !ValidAccount(a) || a.id in accounts {
        return false;
      }
      accounts := accounts[a.id := a];
      return true;
    }

    method UpdateLinkedAccount(a: LinkedAccount) returns (ok: bool)
      modifies `accounts
      ensures ok == (ValidAccount(a) && a.id in old(accounts))
      ensures accounts == if ok then old(accounts)[a.id := a] else old(accounts)
    {
      if !ValidAccount(a) || a.id !in accounts {
        return false;
      }
      accounts := accounts[a.id := a];
      return true;
    }

    method RemoveLinkedAccount(id: string) returns (ok: bool)
      modifies `accounts
      ensures ok == (id != "" && id in old(accounts))
      ensures accounts == if ok then old(accounts) - {id} else old(accounts)
    {
      if id == "" || id !in accounts {
        return false;
      }
      accounts := accounts - {id};
      return true;
    }

    method LoadLinkedClouds() returns (s: seq<LinkedCloud>)
      requires Keyed()
      ensures CloudCursor(s, clouds)
    {
      s := [];
      var ids := clouds.Keys;
      while ids != {}
        invariant ids <= clouds.Keys
        invariant forall x :: x in s ==> x.id in clouds && clouds[x.id] == x
        invariant forall c :: c in clouds && c !in ids ==> clouds[c] in s
      {
        var id :| id in ids;
        s := s + [clouds[id]];
        ids := ids - {id};
      }
    }

    method LoadLinkedAccounts() returns (s: seq<LinkedAccount>)
      requires Keyed()
      ensures AccountCursor(s, accounts)
    {
      s := [];
      var ids := accounts.Keys;
      while ids != {}
        invariant ids <= accounts.Keys
        invariant forall x :: x in s ==> x.id in accounts && accounts[x.id] == x
        invariant forall a :: a in accounts && a !in ids ==> accounts[a] in s
      {
        var id :| id in ids;
        s := s + [accounts[id]];
        ids := ids - {id};
      }
    }
  }

  class ConnectorStore {
    const cache: Cache
    const db: Database

    ghost predicate Valid()
      reads cache`clouds, cache`Repr, cache.Repr
    {
      cache.Valid() && db !in cache.Repr
    }

    ghost function State(): StoreState
      requires Valid()
      reads cache, cache.Repr, db
    {
      StoreState(cache.State(), db.clouds, db.accounts)
    }

    // NewStore: a fresh cache, filled by the two loaders.
    constructor (db: Database)
      requires db.Keyed()
      ensures Valid() && this.db == db && fresh(cache) && fresh(cache.Repr)
      ensures State().clouds == old(db.clouds) && State().accounts == old(db.accounts)
      ensures Recoverable(State())
      ensures State().cache.index == map[]
    {
      hide Skeleton, Loaded, CloudCursor, AccountCursor, LoadClouds, LoadAccounts, Cache.Valid, Cache.View;
      var c := new Cache();
      var clouds := db.LoadLinkedClouds();
      CloudLoader(c, clouds);
      var accounts := db.LoadLinkedAccounts();
      LinkedAccountLoader(c, accounts);
      LoadersRebuild(clouds, accounts, db.clouds, db.accounts);
      LoadingKeepsIndex(clouds, accounts);
      this.cache := c;
      this.db := db;
    }

    static lemma LoadingKeepsIndex(cs: seq<LinkedCloud>, accs: seq<LinkedAccount>)
      ensures LoadAccounts(LoadClouds(EMPTY_CACHE, cs), accs).index == map[]
    {
      CloudsKeepIndex(cs);
      AccountsKeepIndex(LoadClouds(EMPTY_CACHE, cs), accs);
    }

    static lemma {:induction false} CloudsKeepIndex(cs: seq<LinkedCloud>)
      ensures LoadClouds(EMPTY_CACHE, cs).index == map[]
    {
      if cs != [] {
        CloudsKeepIndex(cs[..|cs| - 1]);
      }
    }

    static lemma {:induction false} AccountsKeepIndex(st: CacheState, accs: seq<LinkedAccount>)
      ensures LoadAccounts(st, accs).index == st.index
    {
      if accs != [] {
        AccountsKeepIndex(st, accs[..|accs| - 1]);
      }
    }

    method LoadOrCreateCloud(cloud: LinkedCloud) returns (c: LinkedCloud, loaded: bool, ok: bool)
      requires Valid()
      modifies cache, cache.Repr, db
      ensures Valid() && fresh(cache.Repr - old(cache.Repr))
      ensures (State(), ok) == StoreCloud(old(State()), cloud)
      ensures (c, loaded) == if !ok then (NO_CLOUD, false)
                             else (CacheTree.LoadOrCreateCloud(old(State()).cache, cloud).1, CacheTree.LoadOrCreateCloud(old(State()).cache, cloud).2)
    {
      ok := db.InsertLinkedCloud(cloud);
      if !ok {
        return NO_CLOUD, false, false;
      }
      c, loaded := cache.LoadOrCreateCloud(cloud);
    }

    method LoadOrCreateLinkedAccount(account: LinkedAccount) returns (a: LinkedAccount, loaded: bool, ok: bool)
      requires Valid()
      modifies cache, cache.Repr, db
      ensures Valid() && fresh(cache.Repr - old(cache.Repr))
      ensures (State(), ok) == StoreAccount(old(State()), account)
      ensures (a, loaded) == if !ValidAccount(account) || account.id in old(db.accounts) then (NO_ACCOUNT, false)
                             else (CacheTree.LoadOrCreateLinkedAccount(old(State()).cache, account).1,
                                   CacheTree.LoadOrCreateLinkedAccount(old(State()).cache, account).2)
    {
      ok := db.InsertLinkedAccount(account);
      if !ok {
        return NO_ACCOUNT, false, false;
      }
      a, loaded, ok := cache.LoadOrCreateLinkedAccount(account);
    }

    method UpdateLinkedAccount(account: LinkedAccount) returns (ok: bool)
      requires Valid()
      modifies cache, cache.Repr, db
      ensures Valid() && fresh(cache.Repr - old(cache.Repr))
      ensures (State(), ok) == ReplaceAccount(old(State()), account)
    {
      ok := db.UpdateLinkedAccount(account);
      if ok {
        ok := cache.UpdateLinkedAccount(account);
      }
    }

    method PullOutCloud(cloudID: string) returns (cloud: CloudData?, ok: bool)
      requires Valid()
      modifies cache, cache.Repr, db
      ensures Valid() && fresh(cache.Repr - old(cache.Repr))
      ensures (State(), ok) == RemoveCloud(old(State()), cloudID)
      ensures cloud == if cloudID in old(cache.clouds) then old(cache.clouds[cloudID]) else null
      ensures cloud != null ==> cloud.Valid() && cloudID in old(State()).cache.clouds && cloud.View() == old(State()).cache.clouds[cloudID]
    {
      hide Cache.Valid, Cache.View, CloudData.Valid, CloudData.View, Prune, Ids;
      cloud := cache.PullOutCloud(cloudID);
      if cloud == null {
        return null, false;
      }
      ok := db.RemoveLinkedCloud(cloudID);
    }

    method PullOutLinkedAccount(cloudID: string, linkedAccountID: string) returns (account: LinkedAccountData?, ok: bool)
      requires Valid()
      modifies cache, cache.Repr, db
      ensures Valid() && fresh(cache.Repr - old(cache.Repr))
      ensures (State(), ok) == RemoveAccount(old(State()), cloudID, linkedAccountID)
      ensures account == old(cache.AccountAt(cloudID, linkedAccountID))
      ensures account != null ==>
                && account.Valid() && HasAccount(old(State()).cache.clouds, cloudID, linkedAccountID)
                && account.View() == old(State()).cache.clouds[cloudID].accounts[linkedAccountID]
    {
      hide Cache.Valid, Cache.View, LinkedAccountData.Valid, LinkedAccountData.View, Prune, Ids;
      account := cache.PullOutLinkedAccount(cloudID, linkedAccountID);
      if account == null {
        return null, false;
      }
      ok := db.RemoveLinkedAccount(linkedAccountID);
    }
  }
}
