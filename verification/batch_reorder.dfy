/**
 * The notifications the CoAP gateway makes of a batch discovery: empty representations of inaccessible
 * resources are left out, and the entry with the ETag of the whole message goes last, because the resource
 * aggregate applies them in order.
 */
module BatchReorder {
  import opened Records
  import opened Hrefs

  // One resource of the batch. `emptyObject` says that its content is two bytes that decode to an empty map;
  // `contentTypes` are the resource types found inside its content.
  datatype Resource = Resource(href: string, etag: string, content: string, emptyObject: bool, resourceTypes: seq<string>, contentTypes: seq<string>)

  datatype Status = Remote(code: int) | NotFound

  datatype Notification = Notification(href: string, etag: string, contentFormat: int, data: string, status: Status, resourceTypes: seq<string>)

  const APP_OCF_CBOR := 10000
  const APP_CBOR := 60

  const FILTERED_PREFIXES := ["/oc/wk/introspection", "/oic/sec/"]

  predicate IsEmpty(r: Resource) { |r.content| == 2 && r.emptyObject }

  ghost predicate Filtered(r: Resource) {
    IsEmpty(r) && exists p :: p in FILTERED_PREFIXES && HasPrefix(r.href, p)
  }

  method FilterOutEmptyResource(r: Resource) returns (isEmpty: bool, filterOut: bool)
    ensures isEmpty == IsEmpty(r) && filterOut == Filtered(r)
  {
    isEmpty, filterOut := false, false;
    if |r.content| == 2 {
      if r.emptyObject {
        isEmpty := true;
        for i := 0 to |FILTERED_PREFIXES|
          invariant forall j :: 0 <= j < i ==> !HasPrefix(r.href, FILTERED_PREFIXES[j])
        {
          if HasPrefix(r.href, FILTERED_PREFIXES[i]) {
            return isEmpty, true;
          }
        }
      }
    }
  }

  // An empty representation becomes a "not found" without content.
  function Notify(r: Resource, contentFormat: int, code: int): Notification {
    var types := if r.resourceTypes == [] then r.contentTypes else r.resourceTypes;
    if IsEmpty(r) then Notification(r.href, r.etag, -1, "", NotFound, types)
    else Notification(r.href, r.etag, contentFormat, r.content, Remote(code), types)
  }

  // The notifications of the resources that are kept, in order.
  ghost function Kept(rs: seq<Resource>, contentFormat: int, code: int): seq<Notification> {
    if rs == [] then []
    else
      Kept(rs[..|rs| - 1], contentFormat, code)
      + if Filtered(rs[|rs| - 1]) then [] else [Notify(rs[|rs| - 1], contentFormat, code)]
  }

  // Entries with the ETag of the message; an empty ETag matches nothing.
  predicate Matches(n: Notification, etag: string) { etag != "" && n.etag == etag }

  function Others(ns: seq<Notification>, etag: string): seq<Notification> {
    if ns == [] then []
    else
      var last := ns[|ns| - 1];
      Others(ns[..|ns| - 1], etag) + if Matches(last, etag) then [] else [last]
  }

  // The last matching entry, as a sequence of none or one.
  function LastMatch(ns: seq<Notification>, etag: string): seq<Notification> {
    if ns == [] then []
    else if Matches(ns[|ns| - 1], etag) then [ns[|ns| - 1]]
    else LastMatch(ns[..|ns| - 1], etag)
  }

  function Reordered(ns: seq<Notification>, etag: string): seq<Notification> {
    Others(ns, etag) + LastMatch(ns, etag)
  }

  lemma NotifyKeepsETag(r: Resource, contentFormat: int, code: int)
    ensures Notify(r, contentFormat, code).etag == r.etag
  {
  }

  method NewNotification(r: Resource, isEmpty: bool, contentFormat: int, code: int) returns (n: Notification)
    requires isEmpty == IsEmpty(r)
    ensures n == Notify(r, contentFormat, code)
  {
    var ct := contentFormat;
    var data := r.content;
    var status := Remote(code);
    if isEmpty {
      ct := -1;
      data := "";
      status := NotFound;
    }
    var resourceTypes := r.resourceTypes;
    if |resourceTypes| == 0 {
      resourceTypes := r.contentTypes;
    }
    n := Notification(r.href, r.etag, ct, data, status, resourceTypes);
  }

  // `batch` is what the body decodes to, None when it does not.
  method NotificationsFromBatch(batch: Option<seq<Resource>>, etag: string, contentFormat: int, code: int) returns (requests: Option<seq<Notification>>)
    ensures requests == if (contentFormat != APP_OCF_CBOR && contentFormat != APP_CBOR) || batch.None? then None
                        else Some(Reordered(Kept(batch.value, contentFormat, code), etag))
  {
    hide Filtered, IsEmpty, Notify, Kept, Others, LastMatch;
    if contentFormat != APP_OCF_CBOR && contentFormat != APP_CBOR {
      return None;
    }
    if batch.None? {
      return None;
    }
    var rs := batch.value;
    var out: seq<Notification> := [];
    var latest: Option<Notification> := None;
    ghost var kept: seq<Notification> := [];
    NothingKept(contentFormat, code, etag);
    assert rs[..0] == [];
    for i := 0 to |rs|
      invariant kept == Kept(rs[..i], contentFormat, code)
      invariant out == Others(kept, etag)
      invariant LastMatch(kept, etag) == if latest.Some? then [latest.value] else []
    {
      var r := rs[i];
      KeptNext(rs, i, contentFormat, code);
      var isEmpty, filterOut := FilterOutEmptyResource(r);
      if filterOut {
        continue;
      }
      var request := NewNotification(r, isEmpty, contentFormat, code);
      NotifyKeepsETag(r, contentFormat, code);
      NextNotification(kept, request, etag);
      kept := kept + [request];
      if |etag| > 0 && etag == r.etag {
        latest := Some(request);
        continue;
      }
      out := out + [request];
    }
    assert rs[..|rs|] == rs;
    assert out + [] == out;
    if latest.Some? {
      out := out + [latest.value];
    }
    return Some(out);
  }

  lemma NothingKept(contentFormat: int, code: int, etag: string)
    ensures Kept([], contentFormat, code) == [] && Others([], etag) == [] && LastMatch([], etag) == []
  {
  }

  lemma KeptNext(rs: seq<Resource>, i: nat, contentFormat: int, code: int)
    requires i < |rs|
    ensures Kept(rs[..i + 1], contentFormat, code)
         == if Filtered(rs[i]) then Kept(rs[..i], contentFormat, code)
            else Kept(rs[..i], contentFormat, code) + [Notify(rs[i], contentFormat, code)]
  {
    hide Filtered, Notify;
    assert rs[..i + 1][..i] == rs[..i];
  }

  lemma NextNotification(ns: seq<Notification>, n: Notification, etag: string)
    ensures Others(ns + [n], etag) == if Matches(n, etag) then Others(ns, etag) else Others(ns, etag) + [n]
    ensures LastMatch(ns + [n], etag) == if Matches(n, etag) then [n] else LastMatch(ns, etag)
  {
    assert (ns + [n])[..|ns|] == ns;
  }

  // ---- What the reordering does ----------------------------------------------------------------------

  function CountMatches(ns: seq<Notification>, etag: string): nat {
    if ns == [] then 0 else CountMatches(ns[..|ns| - 1], etag) + if Matches(ns[|ns| - 1], etag) then 1 else 0
  }

  // How often each entry is left: others as often as they were, matching ones only as the last of them.
  lemma {:induction false} OthersAreKept(ns: seq<Notification>, etag: string, n: Notification)
    ensures multiset(Others(ns, etag))[n] == if Matches(n, etag) then 0 else multiset(ns)[n]
    ensures |Others(ns, etag)| == |ns| - CountMatches(ns, etag)
  {
    if ns != [] {
      var t, last := ns[..|ns| - 1], ns[|ns| - 1];
      assert ns == t + [last];
      OthersAreKept(t, etag, n);
    }
  }

  lemma {:induction false} LastMatchIsLast(ns: seq<Notification>, etag: string)
    ensures |LastMatch(ns, etag)| == if CountMatches(ns, etag) > 0 then 1 else 0
    ensures LastMatch(ns, etag) != [] ==>
              exists i :: 0 <= i < |ns| && Matches(ns[i], etag) && LastMatch(ns, etag) == [ns[i]]
                          && forall j :: i < j < |ns| ==> !Matches(ns[j], etag)
  {
    if ns != [] {
      var t, last := ns[..|ns| - 1], ns[|ns| - 1];
      LastMatchIsLast(t, etag);
      if Matches(last, etag) {
        assert ns[|ns| - 1] == last;
      } else if LastMatch(t, etag) != [] {
        var i :| 0 <= i < |t| && Matches(t[i], etag) && LastMatch(t, etag) == [t[i]] && forall j :: i < j < |t| ==> !Matches(t[j], etag);
        assert ns[i] == t[i];
        assert forall j :: i < j < |ns| ==> !Matches(ns[j], etag);
      }
    }
  }

  // The entries that do not match keep their order: each is found at a position not before its own rank.
  lemma {:induction false} OthersKeepOrder(ns: seq<Notification>, etag: string, i: nat)
    requires i < |ns| && !Matches(ns[i], etag)
    ensures var k := i - CountMatches(ns[..i], etag);
            0 <= k < |Others(ns, etag)| && Others(ns, etag)[k] == ns[i]
  {
    var t := ns[..|ns| - 1];
    if i == |ns| - 1 {
      assert ns[..i] == t;
      OthersAreKept(t, etag, ns[i]);
    } else {
      assert t[..i] == ns[..i];
      OthersKeepOrder(t, etag, i);
    }
  }

  // Main result: nothing is lost exactly when at most one entry carries the ETag of the message; then the
  // output is a permutation of the kept entries with that entry last. Of several such entries all but the
  // last are dropped.
  lemma ReorderIsPermutation(ns: seq<Notification>, etag: string)
    ensures multiset(Reordered(ns, etag)) == multiset(ns) <==> CountMatches(ns, etag) <= 1
    ensures CountMatches(ns, etag) > 0 ==>
              Reordered(ns, etag) != [] && Matches(Reordered(ns, etag)[|Reordered(ns, etag)| - 1], etag)
    ensures |Reordered(ns, etag)| == |ns| - (if CountMatches(ns, etag) > 1 then CountMatches(ns, etag) - 1 else 0)
  {
    hide Others, LastMatch, CountMatches;
    var o, l := Others(ns, etag), LastMatch(ns, etag);
    OthersAreKept(ns, etag, if ns == [] then Notification("", "", 0, "", NotFound, []) else ns[0]);
    LastMatchIsLast(ns, etag);
    if multiset(Reordered(ns, etag)) == multiset(ns) {
      assert |multiset(Reordered(ns, etag))| == |multiset(ns)|;
    }
    if CountMatches(ns, etag) <= 1 {
      forall n ensures multiset(o + l)[n] == multiset(ns)[n] {
        OthersAreKept(ns, etag, n);
        MatchedOnce(ns, etag, n);
      }
    }
  }

  lemma {:induction false} MatchedOnce(ns: seq<Notification>, etag: string, n: Notification)
    requires CountMatches(ns, etag) <= 1
    ensures multiset(LastMatch(ns, etag))[n] == if Matches(n, etag) then multiset(ns)[n] else 0
  {
    if ns != [] {
      var t, last := ns[..|ns| - 1], ns[|ns| - 1];
      assert ns == t + [last];
      if Matches(last, etag) {
        NoMatches(t, etag, n);
      } else {
        MatchedOnce(t, etag, n);
      }
    }
  }

  lemma {:induction false} NoMatches(ns: seq<Notification>, etag: string, n: Notification)
    requires CountMatches(ns, etag) == 0
    ensures Matches(n, etag) ==> multiset(ns)[n] == 0
  {
    if ns != [] {
      assert ns == ns[..|ns| - 1] + [ns[|ns| - 1]];
      NoMatches(ns[..|ns| - 1], etag, n);
    }
  }

  // ---- In terms of the ETags alone -------------------------------------------------------------------

  // The entries before `k` that carry the ETag.
  ghost function WithETag(ns: seq<Notification>, etag: string, k: nat): set<nat>
    requires k <= |ns|
  {
    set j: nat | j < k && ns[j].etag == etag
  }

  lemma OneMoreWithETag(ns: seq<Notification>, etag: string, k: nat)
    requires k < |ns|
    ensures |WithETag(ns, etag, k + 1)| == |WithETag(ns, etag, k)| + if ns[k].etag == etag then 1 else 0
  {
    var before := WithETag(ns, etag, k);
    assert WithETag(ns, etag, k + 1) == if ns[k].etag == etag then before + {k} else before;
  }

  lemma {:induction false} CountIsCardinality(ns: seq<Notification>, etag: string, k: nat)
    requires k <= |ns| && etag != ""
    ensures CountMatches(ns[..k], etag) == |WithETag(ns, etag, k)|
  {
    if k == 0 {
      assert WithETag(ns, etag, 0) == {};
    } else {
      hide WithETag;
      CountIsCardinality(ns, etag, k - 1);
      OneMoreWithETag(ns, etag, k - 1);
      assert ns[..k][..k - 1] == ns[..k - 1];
    }
  }

  lemma {:induction false} NoETagKeepsAll(ns: seq<Notification>)
    ensures Others(ns, "") == ns && LastMatch(ns, "") == []
  {
    if ns != [] {
      NoETagKeepsAll(ns[..|ns| - 1]);
      assert ns == ns[..|ns| - 1] + [ns[|ns| - 1]];
    }
  }

  // A message without ETag changes nothing about the order, whatever ETags the entries have.
  lemma NoETagNoReorder(ns: seq<Notification>)
    ensures Reordered(ns, "") == ns
  {
    NoETagKeepsAll(ns);
  }

  lemma TwoOfThem(s: set<nat>, i: nat, j: nat)
    requires i in s && j in s && i != j
    ensures |s| >= 2
  {
    SubsetIsSmaller({i, j}, s);
  }

  lemma MoreThanOne(s: set<nat>) returns (i: nat, j: nat)
    requires |s| > 1
    ensures i in s && j in s && i < j
  {
    var a :| a in s;
    assert |s - {a}| >= 1;
    var b :| b in s - {a};
    i, j := if a < b then a else b, if a < b then b else a;
  }

  lemma AtMostOne(ns: seq<Notification>, etag: string)
    ensures |WithETag(ns, etag, |ns|)| <= 1 <==> forall i, j :: 0 <= i < j < |ns| ==> ns[i].etag != etag || ns[j].etag != etag
  {
    var s := WithETag(ns, etag, |ns|);
    if i, j :| 0 <= i < j < |ns| && ns[i].etag == etag && ns[j].etag == etag {
      TwoOfThem(s, i, j);
    }
    if |s| > 1 {
      var i, j := MoreThanOne(s);
      assert ns[i].etag == etag && ns[j].etag == etag;
    }
  }

  lemma SubsetIsSmaller(a: set<nat>, b: set<nat>)
    requires a <= b
    ensures |a| <= |b|
  {
    assert a + (b - a) == b;
  }

  lemma {:induction false} LastMatchAt(ns: seq<Notification>, etag: string, i: nat)
    requires i < |ns| && etag != "" && ns[i].etag == etag && forall j :: i < j < |ns| ==> ns[j].etag != etag
    ensures LastMatch(ns, etag) == [ns[i]]
  {
    if i < |ns| - 1 {
      LastMatchAt(ns[..|ns| - 1], etag, i);
    }
  }

  // Main result: with an ETag on the message, an entry with another is found at its place among those, the last
  // entry with that one comes last, and nothing is lost exactly if no two entries carry it.
  lemma ReorderByETag(ns: seq<Notification>, etag: string)
    requires etag != ""
    ensures var r := Reordered(ns, etag);
            var n := |WithETag(ns, etag, |ns|)|;
            && |r| == |ns| - (if n > 1 then n - 1 else 0)
            && (forall i :: 0 <= i < |ns| && ns[i].etag != etag ==>
                  0 <= i - |WithETag(ns, etag, i)| < |r| && r[i - |WithETag(ns, etag, i)|] == ns[i])
            && (forall i :: 0 <= i < |ns| && ns[i].etag == etag && (forall j :: i < j < |ns| ==> ns[j].etag != etag) ==>
                  |r| > 0 && r[|r| - 1] == ns[i])
            && (multiset(r) == multiset(ns) <==> forall i, j :: 0 <= i < j < |ns| ==> ns[i].etag != etag || ns[j].etag != etag)
  {
    hide Others, LastMatch, CountMatches, WithETag;
    ReorderIsPermutation(ns, etag);
    CountIsCardinality(ns, etag, |ns|);
    assert ns[..|ns|] == ns;
    AtMostOne(ns, etag);
    forall i | 0 <= i < |ns| && ns[i].etag != etag
      ensures 0 <= i - |WithETag(ns, etag, i)| < |Reordered(ns, etag)| && Reordered(ns, etag)[i - |WithETag(ns, etag, i)|] == ns[i]
    {
      CountIsCardinality(ns, etag, i);
      OthersKeepOrder(ns, etag, i);
    }
    forall i | 0 <= i < |ns| && ns[i].etag == etag && (forall j :: i < j < |ns| ==> ns[j].etag != etag)
      ensures |Reordered(ns, etag)| > 0 && Reordered(ns, etag)[|Reordered(ns, etag)| - 1] == ns[i]
    {
      LastMatchAt(ns, etag, i);
    }
  }

  // ---- What is kept, and as what ---------------------------------------------------------------------

  // Left out are empty objects under the two prefixes.
  lemma FilteredMeans(r: Resource)
    ensures Filtered(r) <==> |r.content| == 2 && r.emptyObject && ("/oc/wk/introspection" <= r.href || "/oic/sec/" <= r.href)
  {
    PrefixMeans(r.href, "/oc/wk/introspection");
    PrefixMeans(r.href, "/oic/sec/");
    assert FILTERED_PREFIXES[0] == "/oc/wk/introspection" && FILTERED_PREFIXES[1] == "/oic/sec/";
  }

  lemma PrefixMeans(s: string, prefix: string)
    ensures HasPrefix(s, prefix) <==> prefix <= s
  {
  }

  // An empty object is reported as not found, without content and content format; anything else as it came.
  lemma NotifyMeans(r: Resource, contentFormat: int, code: int)
    ensures var n := Notify(r, contentFormat, code);
            && n.href == r.href && n.etag == r.etag
            && n.resourceTypes == (if r.resourceTypes != [] then r.resourceTypes else r.contentTypes)
            && (n.status == NotFound <==> |r.content| == 2 && r.emptyObject)
            && (n.status == NotFound ==> n.data == "" && n.contentFormat == -1)
            && (n.status != NotFound ==> n.status == Remote(code) && n.data == r.content && n.contentFormat == contentFormat)
  {
  }

  ghost function FilteredBefore(rs: seq<Resource>, k: nat): set<nat>
    requires k <= |rs|
  {
    set j: nat | j < k && Filtered(rs[j])
  }

  lemma OneMoreFiltered(rs: seq<Resource>, k: nat)
    requires k < |rs|
    ensures |FilteredBefore(rs, k + 1)| == |FilteredBefore(rs, k)| + if Filtered(rs[k]) then 1 else 0
  {
    hide Filtered;
    var before := FilteredBefore(rs, k);
    assert FilteredBefore(rs, k + 1) == if Filtered(rs[k]) then before + {k} else before;
  }

  // The entry of resource `i` is found among the first `k` at its place after those left out before it.
  ghost predicate KeptAt(rs: seq<Resource>, contentFormat: int, code: int, k: nat, i: nat)
    requires i < k <= |rs|
  {
    var ns, p := Kept(rs[..k], contentFormat, code), i - |FilteredBefore(rs, i)|;
    0 <= p < |ns| && ns[p] == Notify(rs[i], contentFormat, code)
  }

  lemma KeptAtStays(rs: seq<Resource>, contentFormat: int, code: int, k: nat, i: nat)
    requires i < k < |rs| && KeptAt(rs, contentFormat, code, k, i)
    ensures KeptAt(rs, contentFormat, code, k + 1, i)
  {
    hide Filtered, Notify, Kept, FilteredBefore;
    KeptNext(rs, k, contentFormat, code);
  }

  lemma KeptAtLast(rs: seq<Resource>, contentFormat: int, code: int, k: nat)
    requires k < |rs| && !Filtered(rs[k]) && |Kept(rs[..k], contentFormat, code)| == k - |FilteredBefore(rs, k)|
    ensures KeptAt(rs, contentFormat, code, k + 1, k)
  {
    hide Filtered, Notify, Kept, FilteredBefore;
    KeptNext(rs, k, contentFormat, code);
  }

  lemma NoneBefore(rs: seq<Resource>, contentFormat: int, code: int)
    ensures Kept(rs[..0], contentFormat, code) == [] && |FilteredBefore(rs, 0)| == 0
  {
    hide Filtered, Notify;
    assert FilteredBefore(rs, 0) == {} && rs[..0] == [];
  }

  lemma {:induction false} KeptCount(rs: seq<Resource>, contentFormat: int, code: int, k: nat)
    requires k <= |rs|
    ensures |Kept(rs[..k], contentFormat, code)| == k - |FilteredBefore(rs, k)|
  {
    hide *;
    if k == 0 {
      NoneBefore(rs, contentFormat, code);
    } else {
      KeptCount(rs, contentFormat, code, k - 1);
      KeptNext(rs, k - 1, contentFormat, code);
      OneMoreFiltered(rs, k - 1);
    }
  }

  lemma {:induction false} KeptUpTo(rs: seq<Resource>, contentFormat: int, code: int, k: nat, i: nat)
    requires i < k <= |rs| && !Filtered(rs[i])
    ensures KeptAt(rs, contentFormat, code, k, i)
  {
    hide *;
    if i == k - 1 {
      KeptCount(rs, contentFormat, code, i);
      KeptAtLast(rs, contentFormat, code, i);
    } else {
      KeptUpTo(rs, contentFormat, code, k - 1, i);
      KeptAtStays(rs, contentFormat, code, k - 1, i);
    }
  }

  // The others are all kept, each at its place among them.
  lemma KeptInOrder(rs: seq<Resource>, contentFormat: int, code: int)
    ensures var ns := Kept(rs, contentFormat, code);
            && |ns| == |rs| - |FilteredBefore(rs, |rs|)|
            && forall i :: 0 <= i < |rs| && !Filtered(rs[i]) ==>
                 var p := i - |FilteredBefore(rs, i)|;
                 0 <= p < |ns| && ns[p] == Notify(rs[i], contentFormat, code)
  {
    hide Filtered, Notify, Kept, FilteredBefore;
    assert rs[..|rs|] == rs;
    KeptCount(rs, contentFormat, code, |rs|);
    forall i | 0 <= i < |rs| && !Filtered(rs[i]) ensures KeptAt(rs, contentFormat, code, |rs|, i) {
      KeptUpTo(rs, contentFormat, code, |rs|, i);
    }
  }

  // ---- The ETags of a message ------------------------------------------------------------------------

  // Reading into a buffer: too small, unreadable, or how many were read.
  datatype ReadResult = ErrTooSmall | ReadError | Read(n: nat)

  function ReadETags(etags: seq<string>, readable: bool, bufferSize: nat): ReadResult {
    if !readable then ReadError else if bufferSize < |etags| then ErrTooSmall else Read(|etags|)
  }

  // The buffer starts with 32 places and doubles until all ETags fit.
  method GetETagsFromMessage(etags: seq<string>, readable: bool) returns (r: seq<string>)
    ensures r == if readable then etags else []
  {
    var size: nat := 32;
    while true
      invariant size >= 32
      decreases |etags| - size
    {
      var read := ReadETags(etags, readable, size);
      match read
      case ErrTooSmall => size := size * 2;
      case ReadError => return [];
      case Read(n) => return etags[..n];
    }
  }
}
