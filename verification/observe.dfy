/**
 * One observation of a resource by a CoAP client: changes are filtered by version and the ones that are passed
 * on are numbered. Clients order notifications by that number as section 3.4 of RFC 7641 says.
 */
module Observe {
  import opened Records

  const UINT32 := 0x1_0000_0000

  datatype Event =
    | ResourceChanged(version: nat, statusOK: bool)
    | ResourceUnpublished(hrefs: seq<string>)
    | DeviceUnregistered
    | Other

  // What an event makes the subscription submit to the task queue.
  datatype Effect = Nothing | SendContent(observe: nat, version: nat) | CancelUnavailable | CancelWithStatus

  // The version last accepted and the last observe number used.
  datatype State = State(version: Option<nat>, seqNum: nat)

  const NEW_SUBSCRIPTION := State(None, 2)

  function Handle(st: State, href: string, e: Event): (State, Effect) {
    match e
    case ResourceUnpublished(hrefs) => (st, if href in hrefs then CancelUnavailable else Nothing)
    case DeviceUnregistered => (st, CancelUnavailable)
    case ResourceChanged(version, statusOK) =>
      if st.version.Some? && st.version.value >= version then (st, Nothing)
      else if !statusOK then (st.(version := Some(version)), CancelWithStatus)
      else
        var n := (st.seqNum + 1) % UINT32;
        (State(Some(version), n), SendContent(n, version))
    case Other => (st, Nothing)
  }

  class ResourceSubscription {
    const href: string
    var seqNum: nat
    var version: nat
    var versionInitialized: bool

    ghost function View(): State
      reads this
    {
      State(if versionInitialized then Some(version) else None, seqNum)
    }

    constructor (href: string)
      ensures this.href == href && View() == NEW_SUBSCRIPTION
    {
      this.href := href;
      seqNum := 2;
      version := 0;
      versionInitialized := false;
    }

    method IsDuplicateEvent(eventVersion: nat) returns (duplicate: bool)
      modifies `version, `versionInitialized
      ensures duplicate == (old(View()).version.Some? && old(View()).version.value >= eventVersion)
      ensures View().version == if duplicate then old(View()).version else Some(eventVersion)
    {
      if versionInitialized && version >= eventVersion {
        return true;
      }
      versionInitialized := true;
      version := eventVersion;
      return false;
    }

    method EventHandler(e: Event) returns (effect: Effect)
      modifies this
      ensures (View(), effect) == Handle(old(View()), href, e)
    {
      match e
      case ResourceUnpublished(hrefs) =>
        if href !in hrefs {
          return Nothing;
        }
        return CancelUnavailable;
      case DeviceUnregistered =>
        return CancelUnavailable;
      case ResourceChanged(eventVersion, statusOK) =>
        var duplicate := IsDuplicateEvent(eventVersion);
        if duplicate {
          return Nothing;
        }
        if !statusOK {
          return CancelWithStatus;
        }
        seqNum := (seqNum + 1) % UINT32;
        return SendContent(seqNum, eventVersion);
      case Other =>
        return Nothing;
    }
  }

  // ---- Whole streams ---------------------------------------------------------------------------------

  function After(href: string, es: seq<Event>): State {
    if es == [] then NEW_SUBSCRIPTION else Handle(After(href, es[..|es| - 1]), href, es[|es| - 1]).0
  }

  function EffectAt(href: string, es: seq<Event>, i: nat): Effect
    requires i < |es|
  {
    Handle(After(href, es[..i]), href, es[i]).1
  }

  // A change newer than every change before it: a strict running maximum.
  ghost predicate Newest(es: seq<Event>, i: nat)
    requires i < |es|
  {
    es[i].ResourceChanged? && forall j :: 0 <= j < i && es[j].ResourceChanged? ==> es[j].version < es[i].version
  }

  ghost predicate Sent(es: seq<Event>, i: nat)
    requires i < |es|
  {
    Newest(es, i) && es[i].statusOK
  }

  // How many of the first k events are passed on to the client.
  ghost function SentBefore(es: seq<Event>, k: nat): nat
    requires k <= |es|
  {
    if k == 0 then 0 else SentBefore(es, k - 1) + if Sent(es, k - 1) then 1 else 0
  }

  lemma NextNumber(k: nat)
    ensures ((2 + k) % UINT32 + 1) % UINT32 == (3 + k) % UINT32
  {
  }

  // The state remembers the greatest version so far and has counted what was sent.
  lemma {:induction false} StateAfter(href: string, es: seq<Event>, k: nat)
    requires k <= |es|
    ensures var st := After(href, es[..k]);
            && (st.version.None? <==> forall j :: 0 <= j < k ==> !es[j].ResourceChanged?)
            && (st.version.Some? ==>
                  && (forall j :: 0 <= j < k && es[j].ResourceChanged? ==> es[j].version <= st.version.value)
                  && exists j :: 0 <= j < k && es[j].ResourceChanged? && es[j].version == st.version.value)
            && st.seqNum == (2 + SentBefore(es, k)) % UINT32
  {
    if k > 0 {
      StateAfter(href, es, k - 1);
      NextNumber(SentBefore(es, k - 1));
      assert es[..k][..k - 1] == es[..k - 1];
      var before := After(href, es[..k - 1]);
      assert After(href, es[..k]) == Handle(before, href, es[k - 1]).0;
      if es[k - 1].ResourceChanged? {
        assert Newest(es, k - 1) <==> before.version.None? || before.version.value < es[k - 1].version;
      }
    }
  }

  // Main result: of any stream of events exactly the strict running maxima of the version with status OK are
  // passed on, and they carry the observe numbers 3, 4, 5, ... until the counter wraps.
  lemma StreamIsFiltered(href: string, es: seq<Event>, i: nat)
    requires i < |es| && es[i].ResourceChanged?
    ensures EffectAt(href, es, i) ==
              if !Newest(es, i) then Nothing
              else if es[i].statusOK then SendContent((3 + SentBefore(es, i)) % UINT32, es[i].version)
              else CancelWithStatus
  {
    hide After, SentBefore;
    StateAfter(href, es, i);
    var st := After(href, es[..i]);
    assert es[i] == ResourceChanged(es[i].version, es[i].statusOK);
    assert Newest(es, i) <==> st.version.None? || st.version.value < es[i].version;
    NextNumber(SentBefore(es, i));
  }

  // When an observation is cancelled: by the unregistration of its device, by the unpublishing of its resource, or
  // by the newest content so far if its status is not OK; everything else but content is passed over.
  lemma CancelsExactly(href: string, es: seq<Event>, i: nat)
    requires i < |es|
    ensures EffectAt(href, es, i) == CancelUnavailable <==>
            es[i].DeviceUnregistered? || (es[i].ResourceUnpublished? && href in es[i].hrefs)
    ensures EffectAt(href, es, i) == CancelWithStatus <==> Newest(es, i) && !es[i].statusOK
    ensures EffectAt(href, es, i).SendContent? <==> Newest(es, i) && es[i].statusOK
    ensures EffectAt(href, es, i) != Nothing && !es[i].ResourceChanged? ==> EffectAt(href, es, i) == CancelUnavailable
  {
    hide After, SentBefore;
    if es[i].ResourceChanged? {
      StreamIsFiltered(href, es, i);
    }
  }

  lemma {:induction false} SentBeforeGrows(es: seq<Event>, i: nat, j: nat)
    requires i < j <= |es|
    ensures SentBefore(es, i) + (if Sent(es, i) then 1 else 0) <= SentBefore(es, j)
    decreases j
  {
    if i + 1 < j {
      SentBeforeGrows(es, i, j - 1);
    }
  }

  // Of two contents sent, the later one has the greater version, and the greater observe number exactly when
  // the counter has not wrapped in between.
  lemma ObserveOrderIsVersionOrder(href: string, es: seq<Event>, i: nat, j: nat)
    requires i < j < |es| && EffectAt(href, es, i).SendContent? && EffectAt(href, es, j).SendContent?
    ensures EffectAt(href, es, i).version < EffectAt(href, es, j).version
    ensures SentBefore(es, j) - SentBefore(es, i) < UINT32 ==>
              (EffectAt(href, es, i).observe < EffectAt(href, es, j).observe <==>
                 (3 + SentBefore(es, i)) / UINT32 == (3 + SentBefore(es, j)) / UINT32)
  {
    assert es[i].ResourceChanged? && es[j].ResourceChanged?;
    StreamIsFiltered(href, es, i);
    StreamIsFiltered(href, es, j);
    SentBeforeGrows(es, i, j);
    if SentBefore(es, j) - SentBefore(es, i) < UINT32 {
      Wrapping(3 + SentBefore(es, i), 3 + SentBefore(es, j));
    }
  }

  lemma Wrapping(a: nat, b: nat)
    requires a < b < a + UINT32
    ensures a % UINT32 < b % UINT32 <==> a / UINT32 == b / UINT32
  {
  }

  // ---- The order a client sees -----------------------------------------------------------------------

  // Section 3.4 of RFC 7641: a notification with the number v2 is newer than one with v1. (The third case
  // there, that more than 128 seconds lie between the two, needs a clock.)
  predicate Newer(v1: nat, v2: nat) {
    (v1 < v2 && v2 - v1 < 0x80_0000) || (v1 > v2 && v1 - v2 > 0x80_0000)
  }

  // The three bytes that section 2 of RFC 7641 gives the option.
  function Option24(n: nat): nat { n % 0x100_0000 }

  lemma Modulo24(n: nat)
    ensures Option24(n % UINT32) == Option24(n)
  {
    assert UINT32 == 256 * 0x100_0000;
    assert n == n / UINT32 * UINT32 + n % UINT32;
    assert n == 0x100_0000 * (256 * (n / UINT32)) + n % UINT32;
    ModuloMultiple(n % UINT32, 256 * (n / UINT32));
  }

  lemma ModuloMultiple(r: nat, q: nat)
    ensures (0x100_0000 * q + r) % 0x100_0000 == r % 0x100_0000
  {
  }

  lemma NewerModulo24(a: nat, b: nat)
    requires a < b < a + 0x100_0000
    ensures Newer(Option24(a), Option24(b)) <==> b - a < 0x80_0000
    ensures Newer(Option24(b), Option24(a)) <==> b - a > 0x80_0000
  {
  }

  lemma NewerModulo32(a: nat, b: nat)
    requires a < b < a + 0x80_0000
    ensures Newer(a % UINT32, b % UINT32) && !Newer(b % UINT32, a % UINT32)
  {
  }

  // Main result: a client that compares observe numbers as the RFC says finds a content sent later newer,
  // whether it has all 32 bits of the counter or the lower 24, if it was sent fewer than 2^23 contents later;
  // with 24 bits and fewer than 2^24 contents, exactly then.
  lemma LaterContentIsNewer(href: string, es: seq<Event>, i: nat, j: nat)
    requires i < j < |es| && EffectAt(href, es, i).SendContent? && EffectAt(href, es, j).SendContent?
    ensures var v, w := EffectAt(href, es, i).observe, EffectAt(href, es, j).observe;
            var apart := SentBefore(es, j) - SentBefore(es, i);
            && (apart < 0x80_0000 ==> Newer(v, w) && !Newer(w, v))
            && (apart < 0x100_0000 ==> (Newer(Option24(v), Option24(w)) <==> apart < 0x80_0000))
            && (apart < 0x80_0000 ==> !Newer(Option24(w), Option24(v)))
  {
    hide After, SentBefore, Newer, Option24;
    assert es[i].ResourceChanged? && es[j].ResourceChanged?;
    StreamIsFiltered(href, es, i);
    StreamIsFiltered(href, es, j);
    SentBeforeGrows(es, i, j);
    var a, b := 3 + SentBefore(es, i), 3 + SentBefore(es, j);
    Modulo24(a);
    Modulo24(b);
    if b - a < 0x80_0000 {
      NewerModulo32(a, b);
    }
    if b - a < 0x100_0000 {
      NewerModulo24(a, b);
    }
  }
}
