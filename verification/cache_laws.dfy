/**
 * The index agrees with the tree in every state that any sequence of cache operations can reach, and
 * removing a subtree removes exactly what was inside it.
 */
module CacheLaws {
  import opened Records
  import opened CacheTree

  // ---- The invariant -----------------------------------------------------------------------------

  // Clouds and accounts are filed under their own IDs.
  ghost predicate WellKeyed(t: Tree) {
    && (forall c :: c in t ==> t[c].cloud.id == c)
    && (forall c, a :: c in t && a in t[c].accounts ==>
          t[c].accounts[a].account.id == a && t[c].accounts[a].account.linkedCloudID == c)
  }

  // Every indexed subscription sits in its slot, every subscribed slot is indexed.
  ghost predicate Consistent(st: CacheState) {
    && WellKeyed(st.clouds)
    && (forall id :: id in st.index ==>
          st.index[id].id == id && SlotAt(st.clouds, PathOf(st.index[id])) == Some(st.index[id]))
    && (forall p :: SlotAt(st.clouds, p).Some? ==> Filed(st, p))
  }

  ghost predicate Filed(st: CacheState, p: Path)
    requires SlotAt(st.clouds, p).Some?
  {
    var s := SlotAt(st.clouds, p).value;
    PathOf(s) == p && s.id in st.index && st.index[s.id] == s
  }

  // The agreement as one equivalence, and what it gives: no two slots share an ID.
  lemma IndexAgreesWithTree(st: CacheState)
    requires Consistent(st)
    ensures forall s: Subscription :: (s.id in st.index && st.index[s.id] == s) <==> SlotAt(st.clouds, PathOf(s)) == Some(s)
    ensures forall p, q | SlotAt(st.clouds, p).Some? && SlotAt(st.clouds, q).Some? ::
              SlotAt(st.clouds, p).value.id == SlotAt(st.clouds, q).value.id ==> p == q
  {
    forall s: Subscription | SlotAt(st.clouds, PathOf(s)) == Some(s)
      ensures s.id in st.index && st.index[s.id] == s
    {
      assert Filed(st, PathOf(s));
    }
    forall p, q | SlotAt(st.clouds, p).Some? && SlotAt(st.clouds, q).Some?
                  && SlotAt(st.clouds, p).value.id == SlotAt(st.clouds, q).value.id
      ensures p == q
    {
      assert Filed(st, p) && Filed(st, q);
    }
  }

  // ---- All operations ----------------------------------------------------------------------------

  datatype Op =
    | CreateCloud(cloud: LinkedCloud)
    | CreateAccount(account: LinkedAccount)
    | UpdateAccount(account: LinkedAccount)
    | LoadSub(id: string)
    | CreateSub(sub: Subscription)
    | PullOutSub(id: string)
    | PullOutSubtree(scope: Scope)

  ghost function Apply(st: CacheState, op: Op): CacheState {
    match op
    case CreateCloud(cloud) => LoadOrCreateCloud(st, cloud).0
    case CreateAccount(account) => LoadOrCreateLinkedAccount(st, account).0
    case UpdateAccount(account) => UpdateLinkedAccount(st, account).0
    case LoadSub(id) => LoadSubscription(st, id).0
    case CreateSub(sub) => LoadOrCreateSubscription(st, sub).0
    case PullOutSub(id) => PullOutSubscription(st, id).0
    case PullOutSubtree(scope) => PullOut(st, scope)
  }

  ghost function Run(st: CacheState, ops: seq<Op>): CacheState
    decreases |ops|
  {
    if ops == [] then st else Run(Apply(st, ops[0]), ops[1..])
  }

  // In a consistent state an indexed subscription always has its account, so the branch of
  // LoadSubscription that deletes a dangling entry is never taken and loading changes nothing.
  lemma DanglingBranchUnreachable(st: CacheState, id: string)
    requires Consistent(st)
    ensures id in st.index ==> HasAccount(st.clouds, st.index[id].linkedCloudID, st.index[id].linkedAccountID)
    ensures LoadSubscription(st, id).0 == st
    ensures LoadSubscription(st, id).2 <==> id in st.index
    ensures id in st.index ==> LoadSubscription(st, id).1.subscription == st.index[id]
  {
    if id in st.index {
      var p := PathOf(st.index[id]);
      assert SlotAt(st.clouds, p).Some?;
    }
  }

  // What storing a subscription does to the slots, whatever the state.
  lemma CreateSubEffect(st: CacheState, sub: Subscription)
    requires Consistent(st)
    ensures var st' := LoadOrCreateSubscription(st, sub).0;
            var free := sub.id !in st.index && HasAccount(st.clouds, sub.linkedCloudID, sub.linkedAccountID)
                        && SlotAt(st.clouds, PathOf(sub)).None?;
            && (forall q :: SlotAt(st'.clouds, q) == if free && q == PathOf(sub) then Some(sub) else SlotAt(st.clouds, q))
            && st'.index == (if free then st.index[sub.id := sub] else st.index)
            && (!free ==> st' == st)
            && WellKeyed(st'.clouds)
  {
    DanglingBranchUnreachable(st, sub.id);
    if sub.id !in st.index && HasAccount(st.clouds, sub.linkedCloudID, sub.linkedAccountID)
       && SlotAt(st.clouds, PathOf(sub)).None? {
      forall q ensures SlotAt(Put(st.clouds, PathOf(sub), Some(sub)), q) == if q == PathOf(sub) then Some(sub) else SlotAt(st.clouds, q) {
        PutGet(st.clouds, PathOf(sub), Some(sub), q);
      }
    }
  }

  lemma PutKeepsKeys(t: Tree, p: Path, v: Option<Subscription>)
    requires WellKeyed(t) && HasAccount(t, p.cloud, p.account)
    ensures WellKeyed(Put(t, p, v))
  {
  }

  lemma PullOutSubEffect(st: CacheState, id: string)
    requires Consistent(st)
    ensures var (st', data, ok) := PullOutSubscription(st, id);
            && (ok <==> id in st.index)
            && (ok ==> data.subscription == st.index[id])
            && (forall q :: SlotAt(st'.clouds, q) ==
                            if id in st.index && q == PathOf(st.index[id]) then None else SlotAt(st.clouds, q))
            && st'.index == st.index - {id}
            && WellKeyed(st'.clouds)
  {
    hide Put, SlotAt, PathOf, Consistent, HasAccount;
    if id in st.index {
      IndexedIsFiled(st, id);
      var p := PathOf(st.index[id]);
      PutKeepsKeys(st.clouds, p, None);
      forall q ensures SlotAt(Put(st.clouds, p, None), q) == if q == p then None else SlotAt(st.clouds, q) {
        PutGet(st.clouds, p, None, q);
      }
    } else {
      ConsistentIsKeyed(st);
      assert st.index - {id} == st.index;
    }
  }

  lemma ConsistentIsKeyed(st: CacheState)
    requires Consistent(st)
    ensures WellKeyed(st.clouds)
  {
  }

  lemma IndexedIsFiled(st: CacheState, id: string)
    requires Consistent(st) && id in st.index
    ensures var s := st.index[id];
            var p := PathOf(s);
            && s.id == id && p.cloud == s.linkedCloudID && p.account == s.linkedAccountID
            && HasAccount(st.clouds, p.cloud, p.account) && SlotAt(st.clouds, p) == Some(s) && WellKeyed(st.clouds)
  {
    assert SlotAt(st.clouds, PathOf(st.index[id])).Some?;
  }

  // ---- Subtrees ----------------------------------------------------------------------------------

  // The IDs collected by the nested clean-up loops are exactly those of the slots the scope covers.
  lemma IdsAreThoseCovered(t: Tree, sc: Scope, id: string)
    requires Present(t, sc)
    ensures id in Ids(t, sc) <==> exists p :: Covers(sc, p) && SlotAt(t, p).Some? && SlotAt(t, p).value.id == id
  {
    if p :| Covers(sc, p) && SlotAt(t, p).Some? && SlotAt(t, p).value.id == id {
      CoveredIdCollected(t, sc, p);
    }
    if id in Ids(t, sc) {
      var p := CollectedIdCovered(t, sc, id);
      assert Covers(sc, p) && SlotAt(t, p).Some? && SlotAt(t, p).value.id == id;
    }
  }

  lemma CoveredIdCollected(t: Tree, sc: Scope, p: Path)
    requires Present(t, sc) && Covers(sc, p) && SlotAt(t, p).Some?
    ensures SlotAt(t, p).value.id in Ids(t, sc)
  {
    var a := t[p.cloud].accounts[p.account];
    var id := SlotAt(t, p).value.id;
    if !p.DevicesPath? {
      var d := a.devices[p.device];
      if p.ResourcePath? {
        assert id in SlotIds(d.resources[p.href]);
      }
      assert sc.ResourceScope? || id in DeviceIds(d);
    }
    assert sc.ResourceScope? || sc.DeviceScope? || id in AccountIds(a);
  }

  lemma CollectedIdInDevice(d: DeviceTree, id: string, c: string, a: string, dev: string) returns (p: Path)
    requires id in DeviceIds(d)
    ensures !p.DevicesPath? && p.cloud == c && p.account == a && p.device == dev
    ensures DeviceSlot(d, p).Some? && DeviceSlot(d, p).value.id == id
  {
    if id in SlotIds(d.slot) {
      p := DevicePath(c, a, dev);
    } else {
      var h :| h in d.resources && id in SlotIds(d.resources[h]);
      p := ResourcePath(c, a, dev, h);
    }
  }

  lemma CollectedIdInAccount(acc: AccountTree, id: string, c: string, a: string) returns (p: Path)
    requires id in AccountIds(acc)
    ensures p.cloud == c && p.account == a
    ensures AccountSlot(acc, p).Some? && AccountSlot(acc, p).value.id == id
  {
    if id in SlotIds(acc.slot) {
      p := DevicesPath(c, a);
    } else {
      var d :| d in acc.devices && id in DeviceIds(acc.devices[d]);
      p := CollectedIdInDevice(acc.devices[d], id, c, a, d);
    }
  }

  lemma CollectedIdCovered(t: Tree, sc: Scope, id: string) returns (p: Path)
    requires Present(t, sc) && id in Ids(t, sc)
    ensures Covers(sc, p) && SlotAt(t, p).Some? && SlotAt(t, p).value.id == id
  {
    match sc
    case CloudScope(c) =>
      var a :| a in t[c].accounts && id in AccountIds(t[c].accounts[a]);
      p := CollectedIdInAccount(t[c].accounts[a], id, c, a);
    case AccountScope(c, a) =>
      p := CollectedIdInAccount(t[c].accounts[a], id, c, a);
    case DeviceScope(c, a, d) =>
      p := CollectedIdInDevice(t[c].accounts[a].devices[d], id, c, a, d);
    case ResourceScope(c, a, d, h) =>
      p := ResourcePath(c, a, d, h);
  }

  lemma PruneGet(t: Tree, sc: Scope, q: Path)
    requires Present(t, sc)
    ensures SlotAt(Prune(t, sc), q) == if Covers(sc, q) then None else SlotAt(t, q)
  {
  }

  lemma PrunedIsGone(t: Tree, sc: Scope)
    requires Present(t, sc) && WellKeyed(t)
    ensures !Present(Prune(t, sc), sc) && WellKeyed(Prune(t, sc))
  {
  }

  lemma IndexedIdCovered(st: CacheState, sc: Scope, id: string)
    requires Consistent(st) && Present(st.clouds, sc) && id in st.index
    ensures id in Ids(st.clouds, sc) <==> Covers(sc, PathOf(st.index[id]))
  {
    hide Ids, Present, SlotAt, Covers, PathOf;
    IdsAreThoseCovered(st.clouds, sc, id);
    IndexAgreesWithTree(st);
  }

  // Pulling out a subtree empties the slots it covers and drops exactly their subscriptions from the
  // index; every other slot and entry stays as it was. A missing subtree changes nothing.
  lemma PullOutIsExact(st: CacheState, sc: Scope)
    requires Consistent(st)
    ensures var st' := PullOut(st, sc);
            && !Present(st'.clouds, sc)
            && (forall q :: SlotAt(st'.clouds, q) == if Covers(sc, q) then None else SlotAt(st.clouds, q))
            && (forall id :: id in st'.index <==> id in st.index && !Covers(sc, PathOf(st.index[id])))
            && (forall id :: id in st'.index ==> st'.index[id] == st.index[id])
            && WellKeyed(st'.clouds)
  {
    hide Ids, Present, Prune, SlotAt, Covers, PathOf, WellKeyed;
    if Present(st.clouds, sc) {
      PrunedIsGone(st.clouds, sc);
      forall q ensures SlotAt(Prune(st.clouds, sc), q) == if Covers(sc, q) then None else SlotAt(st.clouds, q) {
        PruneGet(st.clouds, sc, q);
      }
      forall id | id in st.index
        ensures id in Ids(st.clouds, sc) <==> Covers(sc, PathOf(st.index[id]))
      {
        IndexedIdCovered(st, sc, id);
      }
    } else {
      AbsentScopeIsEmpty(st.clouds, sc);
      assert forall id :: id in st.index ==> SlotAt(st.clouds, PathOf(st.index[id])).Some?;
    }
  }

  lemma AbsentScopeIsEmpty(t: Tree, sc: Scope)
    requires !Present(t, sc)
    ensures forall q :: Covers(sc, q) ==> SlotAt(t, q).None?
  {
  }

  // ---- Every reachable state ---------------------------------------------------------------------

  lemma CreateCloudKeepsSlots(st: CacheState, cloud: LinkedCloud)
    requires WellKeyed(st.clouds)
    ensures var st' := LoadOrCreateCloud(st, cloud).0;
            WellKeyed(st'.clouds) && st'.index == st.index && forall p :: SlotAt(st'.clouds, p) == SlotAt(st.clouds, p)
  {
  }

  lemma RecordsKeepConsistent(st: CacheState, op: Op)
    requires Consistent(st) && (op.CreateCloud? || op.CreateAccount? || op.UpdateAccount?)
    ensures Consistent(Apply(st, op))
  {
    hide LoadOrCreateCloud, LoadOrCreateLinkedAccount, UpdateLinkedAccount, SlotAt;
    match op {
      case CreateCloud(cloud) => CreateCloudKeepsSlots(st, cloud);
      case CreateAccount(account) => CreateAccountKeepsSlots(st, account);
      case UpdateAccount(account) => UpdateAccountKeepsSlots(st, account);
    }
    SlotsKept(st, Apply(st, op));
  }

  lemma ApplyKeepsConsistent(st: CacheState, op: Op)
    requires Consistent(st)
    ensures Consistent(Apply(st, op))
  {
    hide Consistent, LoadOrCreateSubscription, PullOutSubscription, LoadSubscription, PullOut, LoadOrCreateCloud, LoadOrCreateLinkedAccount, UpdateLinkedAccount;
    match op
    case LoadSub(id) => DanglingBranchUnreachable(st, id);
    case CreateSub(sub) => CreateSubKeepsConsistent(st, sub);
    case PullOutSub(id) => PullOutSubKeepsConsistent(st, id);
    case PullOutSubtree(scope) => PullOutKeepsConsistent(st, scope);
    case _ => RecordsKeepConsistent(st, op);
  }

  lemma CreateAccountKeepsSlots(st: CacheState, account: LinkedAccount)
    requires WellKeyed(st.clouds)
    ensures var st' := LoadOrCreateLinkedAccount(st, account).0;
            WellKeyed(st'.clouds) && st'.index == st.index && forall p :: SlotAt(st'.clouds, p) == SlotAt(st.clouds, p)
  {
  }

  lemma UpdateAccountKeepsSlots(st: CacheState, account: LinkedAccount)
    requires WellKeyed(st.clouds)
    ensures var st' := UpdateLinkedAccount(st, account).0;
            WellKeyed(st'.clouds) && st'.index == st.index && forall p :: SlotAt(st'.clouds, p) == SlotAt(st.clouds, p)
  {
  }

  lemma CreateSubKeepsConsistent(st: CacheState, sub: Subscription)
    requires Consistent(st)
    ensures Consistent(LoadOrCreateSubscription(st, sub).0)
  {
    hide LoadOrCreateSubscription, SlotAt, WellKeyed;
    var st' := LoadOrCreateSubscription(st, sub).0;
    CreateSubEffect(st, sub);
    forall p | SlotAt(st'.clouds, p).Some? ensures Filed(st', p) {
      assert SlotAt(st.clouds, p).Some? ==> Filed(st, p);
    }
  }

  lemma PullOutSubKeepsConsistent(st: CacheState, id: string)
    requires Consistent(st)
    ensures Consistent(PullOutSubscription(st, id).0)
  {
    hide PullOutSubscription, SlotAt, WellKeyed;
    var st' := PullOutSubscription(st, id).0;
    PullOutSubEffect(st, id);
    forall p | SlotAt(st'.clouds, p).Some? ensures Filed(st', p) {
      assert Filed(st, p);
    }
  }

  lemma PullOutKeepsConsistent(st: CacheState, sc: Scope)
    requires Consistent(st)
    ensures Consistent(PullOut(st, sc))
  {
    hide PullOut, SlotAt, WellKeyed, Covers;
    var st' := PullOut(st, sc);
    PullOutIsExact(st, sc);
    forall p | SlotAt(st'.clouds, p).Some? ensures Filed(st', p) {
      assert Filed(st, p);
    }
  }

  // An operation that touches neither slots nor index.
  lemma SlotsKept(st: CacheState, st': CacheState)
    requires Consistent(st) && WellKeyed(st'.clouds) && st'.index == st.index
    requires forall p :: SlotAt(st'.clouds, p) == SlotAt(st.clouds, p)
    ensures Consistent(st')
  {
    forall p | SlotAt(st'.clouds, p).Some? ensures Filed(st', p) {
      assert Filed(st, p);
    }
  }

  // Main result: any sequence of operations on a new cache leaves index and tree in agreement.
  lemma {:induction false} RunKeepsConsistent(st: CacheState, ops: seq<Op>)
    requires Consistent(st)
    ensures Consistent(Run(st, ops))
    decreases |ops|
  {
    if ops != [] {
      ApplyKeepsConsistent(st, ops[0]);
      RunKeepsConsistent(Apply(st, ops[0]), ops[1..]);
    }
  }

  lemma EveryReachableStateAgrees(ops: seq<Op>, s: Subscription)
    ensures var st := Run(EMPTY_CACHE, ops);
            (s.id in st.index && st.index[s.id] == s) <==> SlotAt(st.clouds, PathOf(s)) == Some(s)
  {
    RunKeepsConsistent(EMPTY_CACHE, ops);
    IndexAgreesWithTree(Run(EMPTY_CACHE, ops));
  }
}
