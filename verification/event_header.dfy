/**
 * The headers of an event: printed by the cloud-to-cloud gateway, parsed by the connector, both ends computing
 * the same signature over the same byte string. Go strings and byte slices are sequences of characters here,
 * one character a byte; the HMAC is any function from a key and a message to a 32-byte digest.
 */
module EventHeader {
  import opened Records
  import opened Decimal

  const CORRELATION_ID := "Correlation-ID"
  const SUBSCRIPTION_ID := "Subscription-ID"
  const CONTENT_TYPE := "Content-Type"
  const EVENT_TYPE := "Event-Type"
  const SEQUENCE_NUMBER := "Sequence-Number"
  const EVENT_TIMESTAMP := "Event-Timestamp"
  const EVENT_SIGNATURE := "Event-Signature"
  const ACCEPT_ENCODING := "Accept-Encoding"
  const CONTENT_ENCODING := "Content-Encoding"

  const JSON := "application/json"
  const VND_OCF_CBOR := "application/vnd.ocf+cbor"

  const RESOURCE_CHANGED := "resource_contentchanged"
  const RESOURCES_PUBLISHED := "resources_published"
  const RESOURCES_UNPUBLISHED := "resources_unpublished"
  const DEVICES_ONLINE := "devices_online"
  const DEVICES_OFFLINE := "devices_offline"
  const DEVICES_REGISTERED := "devices_registered"
  const DEVICES_UNREGISTERED := "devices_unregistered"
  const SUBSCRIPTION_CANCELED := "subscription_cancelled"

  predicate KnownEvent(e: string) {
    || e == RESOURCE_CHANGED || e == RESOURCES_PUBLISHED || e == RESOURCES_UNPUBLISHED
    || e == DEVICES_ONLINE || e == DEVICES_OFFLINE || e == DEVICES_REGISTERED || e == DEVICES_UNREGISTERED
    || e == SUBSCRIPTION_CANCELED
  }

  // A point in time: whole seconds since the epoch and the nanoseconds within the second.
  datatype Time = Time(unix: int, nanos: nat)

  datatype Request = Request(method_: string, header: map<string, string>, body: string)

  function Get(header: map<string, string>, key: string): string {
    if key in header then header[key] else ""
  }

  // ---- Signature -------------------------------------------------------------------------------------

  newtype byte = x: int | 0 <= x < 256
  type Digest = d: seq<byte> | |d| == 32 witness seq(32, _ => 0)
  type Mac = (string, string) -> Digest

  function HexDigit(n: nat): char
    requires n < 16
  {
    "0123456789abcdef"[n]
  }

  function Hex(d: seq<byte>): string {
    if d == [] then "" else [HexDigit(d[0] as int / 16), HexDigit(d[0] as int % 16)] + Hex(d[1..])
  }

  // The byte string the signature is taken over.
  function Preimage(contentType: string, eventType: string, id: string, seqNum: nat, timestamp: Time, body: string): string {
    contentType + ":" + (eventType + ":" + (id + ":" + (FormatUint(seqNum) + ":" + (FormatInt(timestamp.unix) + ":" + body))))
  }

  function Signature(mac: Mac, secret: string, contentType: string, eventType: string, id: string, seqNum: nat, timestamp: Time, body: string): string {
    Hex(mac(secret, Preimage(contentType, eventType, id, seqNum, timestamp, body)))
  }

  // The pieces are written into the hash one after another.
  method CalculateEventSignature(mac: Mac, secret: string, contentType: string, eventType: string, id: string, seqNum: nat, timestamp: Time, body: string)
    returns (signature: string)
    ensures signature == Signature(mac, secret, contentType, eventType, id, seqNum, timestamp, body)
  {
    var hash := contentType;
    hash := hash + ":";
    hash := hash + eventType;
    hash := hash + ":";
    hash := hash + id;
    hash := hash + ":";
    hash := hash + FormatUint(seqNum);
    hash := hash + ":";
    hash := hash + FormatInt(timestamp.unix);
    hash := hash + ":";
    hash := hash + body;
    assert hash == Preimage(contentType, eventType, id, seqNum, timestamp, body);
    signature := Hex(mac(secret, hash));
  }

  lemma {:induction false} HexLength(d: seq<byte>)
    ensures |Hex(d)| == 2 * |d|
  {
    if d != [] {
      HexLength(d[1..]);
    }
  }

  // ---- Framing ---------------------------------------------------------------------------------------

  // The position of the first `c`, or the length of the string.
  function IndexOf(s: string, c: char): (i: nat)
    ensures i <= |s| && (i < |s| ==> s[i] == c) && (c in s ==> i < |s|) && c !in s[..i]
  {
    if s == "" || s[0] == c then 0 else 1 + IndexOf(s[1..], c)
  }

  lemma {:induction false} IndexOfSeparator(a: string, c: char, x: string)
    requires c !in a
    ensures IndexOf(a + [c] + x, c) == |a|
  {
    if a != "" {
      IndexOfSeparator(a[1..], c, x);
      assert (a + [c] + x)[1..] == a[1..] + [c] + x;
    }
  }

  lemma CutAtColon(a: string, x: string, b: string, y: string)
    requires ':' !in a && ':' !in b && a + ":" + x == b + ":" + y
    ensures a == b && x == y
  {
    IndexOfSeparator(a, ':', x);
    IndexOfSeparator(b, ':', y);
    var s := a + ":" + x;
    assert s[..|a|] == a && s[..|b|] == b && s[|a| + 1..] == x && s[|b| + 1..] == y;
  }

  lemma KnownEventNoColon(e: string)
    requires KnownEvent(e)
    ensures ':' !in e
  {
  }

  // What is signed: the parts of one event, in the ranges the program keeps them in.
  datatype Message = Message(contentType: string, eventType: string, id: string, seqNum: nat, timestamp: Time, body: string)

  predicate Signable(m: Message) {
    && ':' !in m.contentType && KnownEvent(m.eventType)
    && m.seqNum <= MAX_UINT64 && MIN_INT64 <= m.timestamp.unix <= MAX_INT64
  }

  function Signed(m: Message): string {
    Preimage(m.contentType, m.eventType, m.id, m.seqNum, m.timestamp, m.body)
  }

  // The same parts, the time to the second.
  predicate SameParts(m: Message, m': Message) {
    && m.contentType == m'.contentType && m.eventType == m'.eventType && m.id == m'.id
    && m.seqNum == m'.seqNum && m.timestamp.unix == m'.timestamp.unix && m.body == m'.body
  }

  // What follows the subscription ID.
  function AfterId(m: Message): string {
    FormatUint(m.seqNum) + ":" + (FormatInt(m.timestamp.unix) + ":" + m.body)
  }

  // Content type and event type can be told from what follows them.
  lemma SignedTails(m: Message, m': Message)
    requires Signable(m) && Signable(m')
    ensures Signed(m) == Signed(m') <==>
            m.contentType == m'.contentType && m.eventType == m'.eventType && m.id + ":" + AfterId(m) == m'.id + ":" + AfterId(m')
  {
    KnownEventNoColon(m.eventType);
    KnownEventNoColon(m'.eventType);
    var r3, r3' := m.id + ":" + AfterId(m), m'.id + ":" + AfterId(m');
    assert Signed(m) == m.contentType + ":" + (m.eventType + ":" + r3);
    assert Signed(m') == m'.contentType + ":" + (m'.eventType + ":" + r3');
    if Signed(m) == Signed(m') {
      CutAtColon(m.contentType, m.eventType + ":" + r3, m'.contentType, m'.eventType + ":" + r3');
      CutAtColon(m.eventType, r3, m'.eventType, r3');
    }
  }

  // Behind the ID the body is all that may hold anything, so there the framing is never ambiguous.
  lemma SameAfterId(m: Message, m': Message)
    requires AfterId(m) == AfterId(m')
    ensures m.seqNum == m'.seqNum && m.timestamp.unix == m'.timestamp.unix && m.body == m'.body
  {
    FormatIntNoColon(m.seqNum);
    FormatIntNoColon(m'.seqNum);
    FormatIntNoColon(m.timestamp.unix);
    FormatIntNoColon(m'.timestamp.unix);
    CutAtColon(FormatUint(m.seqNum), FormatInt(m.timestamp.unix) + ":" + m.body, FormatUint(m'.seqNum), FormatInt(m'.timestamp.unix) + ":" + m'.body);
    CutAtColon(FormatInt(m.timestamp.unix), m.body, FormatInt(m'.timestamp.unix), m'.body);
    FormatIntInjective(m.seqNum, m'.seqNum);
    FormatIntInjective(m.timestamp.unix, m'.timestamp.unix);
  }

  predicate PrintsUint(s: string) { ParseUint(s).Some? && FormatUint(ParseUint(s).value) == s }

  predicate PrintsInt(s: string) { ParseInt(s).Some? && FormatInt(ParseInt(s).value) == s }

  // What may be mistaken for a sequence number, or for that and a timestamp, with anything behind a further colon.
  predicate ReadsAsNumbers(w: string) {
    var i := IndexOf(w, ':');
    && PrintsUint(w[..i])
    && (i < |w| ==> PrintsInt(w[i + 1..][..IndexOf(w[i + 1..], ':')]))
  }

  // `b` is `a`, a colon and such numbers.
  predicate Continues(a: string, b: string) {
    |a| < |b| && b[..|a|] == a && b[|a|] == ':' && ReadsAsNumbers(b[|a| + 1..])
  }

  lemma CollisionOverlaps(a: string, x: string, b: string, y: string)
    requires a + ":" + x == b + ":" + y && |a| < |b|
    ensures b[..|a|] == a && b[|a|] == ':' && x == b[|a| + 1..] + ":" + y
  {
    var s := a + ":" + x;
    assert b[..|a|] == s[..|a|] == a && b[|a|] == s[|a|] == ':';
    assert x == s[|a| + 1..] == b[|a| + 1..] + ":" + y;
  }

  // If the same string reads as a message with the ID `a` and as one with the longer ID `b`, then `b`
  // continues `a`.
  lemma CollisionContinues(m: Message, m': Message)
    requires Signable(m) && Signable(m') && Signed(m) == Signed(m') && |m.id| < |m'.id|
    ensures Continues(m.id, m'.id)
  {
    hide Signed, AfterId, ReadsAsNumbers;
    SignedTails(m, m');
    CollisionOverlaps(m.id, AfterId(m), m'.id, AfterId(m'));
    TailReadsAsNumbers(m, m'.id[|m.id| + 1..], AfterId(m'));
  }

  lemma TailReadsAsNumbers(m: Message, w: string, y: string)
    requires Signable(m) && AfterId(m) == w + ":" + y
    ensures ReadsAsNumbers(w)
  {
    hide IndexOf, FormatUint, FormatInt, ParseUint, ParseInt;
    FormatIntNoColon(m.seqNum);
    ParseUintInvertsFormat(m.seqNum);
    PrintedUint(m.seqNum);
    CutAtFirstColon(FormatUint(m.seqNum), FormatInt(m.timestamp.unix) + ":" + m.body, w, y);
    var i := IndexOf(w, ':');
    if i < |w| {
      FormatIntNoColon(m.timestamp.unix);
      ParseIntInvertsFormat(m.timestamp.unix);
      CutAtFirstColon(FormatInt(m.timestamp.unix), m.body, w[i + 1..], y);
    }
  }

  lemma PrintedUint(n: nat)
    ensures ':' !in FormatUint(n)
  {
    FormatIntNoColon(n);
  }

  lemma Regroup(a: string, b: string, c: string)
    ensures (a + ":" + b) + ":" + c == a + ":" + (b + ":" + c)
  {
  }

  lemma SplitAtColon(w: string, i: nat)
    requires i < |w| && w[i] == ':'
    ensures w == w[..i] + ":" + w[i + 1..]
  {
    var r := w[..i] + ":" + w[i + 1..];
    assert |r| == |w|;
    forall k | 0 <= k < |w| ensures r[k] == w[k] {
      if k > i {
        assert r[k] == w[i + 1..][k - i - 1];
      }
    }
  }

  lemma AtFirstColon(w: string)
    ensures var i := IndexOf(w, ':');
            ':' !in w[..i] && w == if i < |w| then w[..i] + ":" + w[i + 1..] else w[..i]
  {
    hide IndexOf;
    if IndexOf(w, ':') < |w| {
      SplitAtColon(w, IndexOf(w, ':'));
    }
  }

  // A colon-free piece is what the other reading has in front of its first colon.
  lemma CutAtFirstColon(a: string, x: string, w: string, y: string)
    requires ':' !in a && a + ":" + x == w + ":" + y
    ensures var i := IndexOf(w, ':'); w[..i] == a && (i < |w| ==> x == w[i + 1..] + ":" + y)
  {
    hide IndexOf;
    AtFirstColon(w);
    var i := IndexOf(w, ':');
    if i < |w| {
      var u, v := w[..i], w[i + 1..];
      Regroup(u, v, y);
      CutAtColon(a, x, u, v + ":" + y);
    } else {
      CutAtColon(a, x, w, y);
    }
  }

  lemma SameLengthSamePrefix(a: string, x: string, b: string, y: string)
    requires a + ":" + x == b + ":" + y && |a| == |b|
    ensures a == b
  {
    assert (a + ":" + x)[..|a|] == a && (b + ":" + y)[..|b|] == b;
  }

  lemma Reassemble(w: string, t: string, x: string)
    requires var i := IndexOf(w, ':'); x == if i < |w| then w[i + 1..] + ":" + t else t
    ensures w[..IndexOf(w, ':')] + ":" + x == w + ":" + t
  {
    hide IndexOf;
    AtFirstColon(w);
    var i := IndexOf(w, ':');
    if i < |w| {
      Regroup(w[..i], w[i + 1..], t);
    }
  }

  // A timestamp and a body that print as `v` and then the sequence number 0 and `t`, or as `t` alone.
  lemma TimeAndBody(v: string, none: bool, t: string) returns (time: int, body: string)
    requires none ==> t == FormatInt(0) + ":"
    requires !none ==> PrintsInt(v[..IndexOf(v, ':')])
    ensures MIN_INT64 <= time <= MAX_INT64
    ensures FormatInt(time) + ":" + body == if none then FormatUint(0) + ":" + t else v + ":" + (FormatUint(0) + ":" + t)
  {
    if none {
      time, body := 0, t;
    } else {
      hide IndexOf;
      AtFirstColon(v);
      var j := IndexOf(v, ':');
      time := ParseInt(v[..j]).value;
      body := FormatUint(0) + ":" + t;
      if j < |v| {
        body := v[j + 1..] + ":" + body;
        Regroup(v[..j], v[j + 1..], FormatUint(0) + ":" + t);
      }
    }
  }

  lemma ContinuesSplits(a: string, b: string) returns (w: string)
    requires Continues(a, b)
    ensures b == a + ":" + w && ReadsAsNumbers(w)
  {
    hide ReadsAsNumbers;
    w := b[|a| + 1..];
    SplitAtColon(b, |a|);
  }

  // A content type and an event type the two services do exchange.
  function ContentChanged(id: string, seqNum: nat, unix: int, body: string): Message {
    Message(JSON, RESOURCE_CHANGED, id, seqNum, Time(unix, 0), body)
  }

  lemma ContentChangedSignable(id: string, seqNum: nat, unix: int, body: string)
    requires seqNum <= MAX_UINT64 && MIN_INT64 <= unix <= MAX_INT64
    ensures Signable(ContentChanged(id, seqNum, unix, body))
    ensures AfterId(ContentChanged(id, seqNum, unix, body)) == FormatUint(seqNum) + ":" + (FormatInt(unix) + ":" + body)
  {
    assert ':' !in JSON;
  }

  // A message whose number, timestamp and body read as `w` and then the number, timestamp and body of `m'`.
  lemma MessageReading(a: string, w: string, m': Message) returns (m: Message)
    requires m' == ContentChanged(m'.id, 0, 0, "")
    requires ReadsAsNumbers(w)
    ensures Signable(m) && m == ContentChanged(a, m.seqNum, m.timestamp.unix, m.body)
    ensures AfterId(m) == w + ":" + AfterId(m')
  {
    hide IndexOf, FormatUint, FormatInt, ParseInt, Signable, AfterId;
    var i := IndexOf(w, ':');
    var n := ParseUint(w[..i]).value;
    ContentChangedSignable(m'.id, 0, 0, "");
    assert FormatInt(0) + ":" + "" == FormatInt(0) + ":";
    var time, body := TimeAndBody(if i < |w| then w[i + 1..] else "", i == |w|, FormatInt(0) + ":");
    Reassemble(w, FormatUint(0) + ":" + (FormatInt(0) + ":"), FormatInt(time) + ":" + body);
    ContentChangedSignable(a, n, time, body);
    m := ContentChanged(a, n, time, body);
  }

  lemma SignedIfTailsAgree(m: Message, m': Message, a: string, b: string, w: string)
    requires Signable(m) && Signable(m') && m.contentType == m'.contentType && m.eventType == m'.eventType
    requires m.id == a && m'.id == b && b == a + ":" + w && AfterId(m) == w + ":" + AfterId(m')
    ensures Signed(m) == Signed(m')
  {
    hide Signed, Signable, AfterId;
    Regroup(a, w, AfterId(m'));
    SignedTails(m, m');
  }

  // The other way round: two messages with such IDs that are signed over the same string. The shorter ID
  // makes what is left of the longer one its sequence number, its timestamp and the start of its body.
  lemma ContinuingIdsCollide(a: string, b: string) returns (m: Message, m': Message)
    requires Continues(a, b)
    ensures Signable(m) && Signable(m') && m.id == a && m'.id == b && Signed(m) == Signed(m')
  {
    hide Signed, Signable, AfterId, Continues, ReadsAsNumbers;
    var w := ContinuesSplits(a, b);
    m' := ContentChanged(b, 0, 0, "");
    ContentChangedSignable(b, 0, 0, "");
    m := MessageReading(a, w, m');
    SignedIfTailsAgree(m, m', a, b, w);
  }

  lemma CollidingIdsDiffer(m: Message, m': Message)
    requires Signable(m) && Signable(m') && Signed(m) == Signed(m') && m.id != m'.id
    ensures |m.id| != |m'.id|
  {
    hide Signable, Signed, AfterId;
    SignedTails(m, m');
    if |m.id| == |m'.id| {
      SameLengthSamePrefix(m.id, AfterId(m), m'.id, AfterId(m'));
    }
  }

  // Main result: two different subscription IDs can be confused, that is, some string reads as a message of
  // either, exactly when one continues the other.
  lemma IdsCollideExactly(a: string, b: string)
    requires a != b
    ensures (exists m, m' :: Signable(m) && Signable(m') && m.id == a && m'.id == b && Signed(m) == Signed(m'))
              <==> Continues(a, b) || Continues(b, a)
  {
    hide Signable, Signed, Continues;
    if m, m' :| Signable(m) && Signable(m') && m.id == a && m'.id == b && Signed(m) == Signed(m') {
      CollidingIdsDiffer(m, m');
      if |a| < |b| {
        CollisionContinues(m, m');
      } else {
        CollisionContinues(m', m);
      }
    }
    if Continues(a, b) {
      var m, m' := ContinuingIdsCollide(a, b);
    }
    if Continues(b, a) {
      var m', m := ContinuingIdsCollide(b, a);
    }
  }

  // Over any collection of subscription IDs, then, equal signed strings mean equal parts exactly when none of
  // the IDs continues another.
  lemma FramingIsUnambiguous(ids: iset<string>)
    ensures (forall m, m' :: Signable(m) && Signable(m') && m.id in ids && m'.id in ids && Signed(m) == Signed(m') ==> SameParts(m, m'))
              <==> forall a, b :: a in ids && b in ids ==> !Continues(a, b)
  {
    if forall a, b :: a in ids && b in ids ==> !Continues(a, b) {
      forall m, m' | Signable(m) && Signable(m') && m.id in ids && m'.id in ids && Signed(m) == Signed(m') ensures SameParts(m, m') {
        SignedTails(m, m');
        if m.id == m'.id {
          assert (m.id + ":" + AfterId(m))[|m.id| + 1..] == AfterId(m) && (m'.id + ":" + AfterId(m'))[|m.id| + 1..] == AfterId(m');
          SameAfterId(m, m');
        } else {
          IdsCollideExactly(m.id, m'.id);
        }
      }
    } else {
      var a, b :| a in ids && b in ids && Continues(a, b);
      var m, m' := ContinuingIdsCollide(a, b);
      assert !SameParts(m, m');
    }
  }

  // In particular nothing is ambiguous about IDs without colons, such as the UUIDs the gateway hands out.
  lemma ColonFreeIdsAreUnambiguous(m: Message, m': Message)
    requires Signable(m) && Signable(m') && ':' !in m.id && ':' !in m'.id && Signed(m) == Signed(m')
    ensures SameParts(m, m')
  {
    assert !Continues(m.id, m'.id) && !Continues(m'.id, m.id) && !Continues(m.id, m.id) && !Continues(m'.id, m'.id);
    FramingIsUnambiguous(iset{m.id, m'.id});
  }

  // A family of collisions: every message whose body starts with two numbers is framed like one with a longer
  // subscription ID.
  lemma ColonInIdIsAmbiguous(ct: string, et: string, id: string, a: nat, b: int, c: nat, d: int, rest: string)
    ensures Preimage(ct, et, id, a, Time(b, 0), FormatUint(c) + ":" + FormatInt(d) + ":" + rest)
         == Preimage(ct, et, id + ":" + FormatUint(a) + ":" + FormatInt(b), c, Time(d, 0), rest)
  {
    hide FormatUint, FormatInt;
    var tail := FormatUint(c) + ":" + (FormatInt(d) + ":" + rest);
    Regroup(FormatUint(c), FormatInt(d), rest);
    Regroup(id + ":" + FormatUint(a), FormatInt(b), tail);
    Regroup(id, FormatUint(a), FormatInt(b) + ":" + tail);
  }

  // ---- The gateway's side ----------------------------------------------------------------------------

  datatype GatewaySubscription = GatewaySubscription(id: string, correlationID: string, accept: seq<string>, signingSecret: string)

  // What the encoder makes of the representation, for each content type; None when it fails.
  type Representation = string -> Option<string>

  predicate Encodable(contentType: string) { contentType == JSON || contentType == VND_OCF_CBOR }

  // The first acceptable content type the gateway can produce.
  function Negotiate(accept: seq<string>): Option<string> {
    if accept == [] then None else if Encodable(accept[0]) then Some(accept[0]) else Negotiate(accept[1..])
  }

  ghost predicate FirstEncodable(accept: seq<string>, contentType: string) {
    exists i :: 0 <= i < |accept| && accept[i] == contentType && Encodable(accept[i])
                && forall j :: 0 <= j < i ==> !Encodable(accept[j])
  }

  lemma {:induction false} NegotiatedIsFirst(accept: seq<string>)
    ensures Negotiate(accept).None? <==> forall j :: 0 <= j < |accept| ==> !Encodable(accept[j])
    ensures forall ct :: Negotiate(accept) == Some(ct) <==> FirstEncodable(accept, ct)
  {
    if accept != [] {
      NegotiatedIsFirst(accept[1..]);
      if Encodable(accept[0]) {
        assert FirstEncodable(accept, accept[0]);
      } else {
        forall ct ensures FirstEncodable(accept, ct) <==> FirstEncodable(accept[1..], ct) {
          if FirstEncodable(accept, ct) {
            var i :| 0 <= i < |accept| && accept[i] == ct && Encodable(accept[i]) && forall j :: 0 <= j < i ==> !Encodable(accept[j]);
            assert accept[1..][i - 1] == ct;
          }
          if FirstEncodable(accept[1..], ct) {
            var i :| 0 <= i < |accept[1..]| && accept[1..][i] == ct && Encodable(accept[1..][i]) && forall j :: 0 <= j < i ==> !Encodable(accept[1..][j]);
            assert accept[i + 1] == ct;
            assert forall j :: 0 < j < i + 1 ==> accept[j] == accept[1..][j - 1];
          }
        }
      }
    }
  }

  method GetEncoder(accept: seq<string>) returns (contentType: Option<string>)
    ensures contentType == Negotiate(accept)
    ensures contentType.None? <==> forall j :: 0 <= j < |accept| ==> !Encodable(accept[j])
    ensures contentType.Some? ==> FirstEncodable(accept, contentType.value)
  {
    for i := 0 to |accept|
      invariant Negotiate(accept) == Negotiate(accept[i..])
      invariant forall j :: 0 <= j < i ==> !Encodable(accept[j])
    {
      if accept[i] == JSON {
        return Some(JSON);
      }
      if accept[i] == VND_OCF_CBOR {
        return Some(VND_OCF_CBOR);
      }
    }
    return None;
  }

  function EmittedBody(s: GatewaySubscription, rep: Option<Representation>): Option<(string, string)> {
    match rep
    case None => Some(("", ""))
    case Some(encode) =>
      match Negotiate(s.accept)
      case None => None
      case Some(ct) => match encode(ct) case None => None case Some(body) => Some((ct, body))
  }

  // What a request carries: the bytes the encoder makes of the representation for the first acceptable content
  // type that can be produced, under that type; or nothing.
  ghost predicate Carries(r: Request, accept: seq<string>, rep: Option<Representation>) {
    match rep
    case None => r.body == "" && CONTENT_TYPE !in r.header
    case Some(encode) =>
      CONTENT_TYPE in r.header && FirstEncodable(accept, r.header[CONTENT_TYPE]) && encode(r.header[CONTENT_TYPE]) == Some(r.body)
  }

  // The request as a value: no content type header without a representation.
  ghost function EmitRequest(mac: Mac, timestamp: Time, eventType: string, s: GatewaySubscription, seqNum: nat, rep: Option<Representation>): Option<Request> {
    match EmittedBody(s, rep)
    case None => None
    case Some((ct, body)) =>
      var header := map[
        EVENT_TYPE := eventType,
        SUBSCRIPTION_ID := s.id,
        SEQUENCE_NUMBER := FormatUint(seqNum),
        CORRELATION_ID := s.correlationID,
        EVENT_TIMESTAMP := FormatInt(timestamp.unix),
        EVENT_SIGNATURE := Signature(mac, s.signingSecret, ct, eventType, s.id, seqNum, timestamp, body),
        "Connection" := "close"];
      Some(Request("POST", if rep.Some? then header[CONTENT_TYPE := ct] else header, body))
  }

  // Whether the URL of the subscription makes a request is given.
  method MakeEmitEventRequest(urlOk: bool, mac: Mac, timestamp: Time, eventType: string, s: GatewaySubscription, seqNum: nat, rep: Option<Representation>)
    returns (req: Option<Request>)
    ensures req == if urlOk then EmitRequest(mac, timestamp, eventType, s, seqNum, rep) else None
    ensures req.Some? ==> Carries(req.value, s.accept, rep)
  {
    if !urlOk {
      return None;
    }
    var header := map[];
    header := header[EVENT_TYPE := eventType];
    header := header[SUBSCRIPTION_ID := s.id];
    header := header[SEQUENCE_NUMBER := FormatUint(seqNum)];
    header := header[CORRELATION_ID := s.correlationID];
    header := header[EVENT_TIMESTAMP := FormatInt(timestamp.unix)];
    var body := "";
    if rep.Some? {
      var contentType := GetEncoder(s.accept);
      if contentType.None? {
        return None;
      }
      var encoded := rep.value(contentType.value);
      if encoded.None? {
        return None;
      }
      body := encoded.value;
      header := header[CONTENT_TYPE := contentType.value];
    }
    assert Get(header, CONTENT_TYPE) == EmittedBody(s, rep).value.0;
    var signature := CalculateEventSignature(mac, s.signingSecret, Get(header, CONTENT_TYPE), eventType,
                                             Get(header, SUBSCRIPTION_ID), seqNum, timestamp, body);
    header := header[EVENT_SIGNATURE := signature];
    header := header["Connection" := "close"];
    assert EmitRequest(mac, timestamp, eventType, s, seqNum, rep).value.header == header;
    NegotiatedIsFirst(s.accept);
    return Some(Request("POST", header, body));
  }

  // ---- The connector's side --------------------------------------------------------------------------

  datatype EventHeader = EventHeader(
    correlationID: string, id: string, contentType: string, eventType: string,
    sequenceNumber: nat, eventTimestamp: Time, eventSignature: string,
    acceptEncoding: seq<string>, contentEncoding: string)

  datatype Parsed = Ok(header: EventHeader) | InvalidKey(key: string) | InvalidValue(key: string, value: string)

  function SplitComma(s: string): seq<string> {
    var i := IndexOf(s, ',');
    if i == |s| then [s] else [s[..i]] + SplitComma(s[i + 1..])
  }

  function ParseEventHeader(r: Request): Parsed {
    var id := Get(r.header, SUBSCRIPTION_ID);
    var eventType := Get(r.header, EVENT_TYPE);
    var contentType := Get(r.header, CONTENT_TYPE);
    var seqNum := Get(r.header, SEQUENCE_NUMBER);
    var timestamp := Get(r.header, EVENT_TIMESTAMP);
    var signature := Get(r.header, EVENT_SIGNATURE);
    var v := Get(r.header, ACCEPT_ENCODING);
    var acceptEncoding := if r.method_ == "POST" && v != "" then SplitComma(v) else [];
    if id == "" then InvalidKey(SUBSCRIPTION_ID)
    else if !KnownEvent(eventType) then InvalidValue(EVENT_TYPE, eventType)
    else if contentType == "" && eventType != SUBSCRIPTION_CANCELED then InvalidKey(CONTENT_TYPE)
    else if contentType != "" && !Encodable(contentType) then InvalidValue(CONTENT_TYPE, contentType)
    else if seqNum == "" then InvalidKey(SEQUENCE_NUMBER)
    else if ParseUint(seqNum).None? then InvalidValue(SEQUENCE_NUMBER, seqNum)
    else if timestamp == "" then InvalidKey(EVENT_TIMESTAMP)
    else if ParseInt(timestamp).None? then InvalidValue(EVENT_TIMESTAMP, timestamp)
    else if signature == "" then InvalidKey(EVENT_SIGNATURE)
    else if |acceptEncoding| > 1 then InvalidValue(ACCEPT_ENCODING, v)
    else
      Ok(EventHeader(
           Get(r.header, CORRELATION_ID), id, contentType, eventType,
           ParseUint(seqNum).value, Time(ParseInt(timestamp).value, 0), signature,
           acceptEncoding, Get(r.header, CONTENT_ENCODING)))
  }

  // ---- Round trip ------------------------------------------------------------------------------------

  lemma NegotiatedIsSupported(accept: seq<string>)
    ensures Negotiate(accept).Some? ==> Encodable(Negotiate(accept).value)
    ensures Negotiate(accept).None? <==> JSON !in accept && VND_OCF_CBOR !in accept
  {
  }

  lemma Emitted(mac: Mac, timestamp: Time, eventType: string, s: GatewaySubscription, seqNum: nat, rep: Option<Representation>)
    requires EmitRequest(mac, timestamp, eventType, s, seqNum, rep).Some?
    ensures var r := EmitRequest(mac, timestamp, eventType, s, seqNum, rep).value;
            && Get(r.header, EVENT_TYPE) == eventType && Get(r.header, SUBSCRIPTION_ID) == s.id
            && Get(r.header, SEQUENCE_NUMBER) == FormatUint(seqNum) && Get(r.header, CORRELATION_ID) == s.correlationID
            && Get(r.header, EVENT_TIMESTAMP) == FormatInt(timestamp.unix)
            && Get(r.header, CONTENT_TYPE) == EmittedBody(s, rep).value.0
            && Get(r.header, ACCEPT_ENCODING) == Get(r.header, CONTENT_ENCODING) == ""
            && r.body == EmittedBody(s, rep).value.1
            && Get(r.header, EVENT_SIGNATURE)
               == Signature(mac, s.signingSecret, Get(r.header, CONTENT_TYPE), eventType, s.id, seqNum, timestamp, r.body)
            && Get(r.header, EVENT_SIGNATURE) != ""
    ensures var ct := EmittedBody(s, rep).value.0;
            if rep.Some? then Encodable(ct) else ct == ""
  {
    hide Signature, FormatUint, FormatInt, Negotiate;
    NegotiatedIsSupported(s.accept);
    var r := EmitRequest(mac, timestamp, eventType, s, seqNum, rep).value;
    SignatureNotEmpty(mac, s.signingSecret, EmittedBody(s, rep).value.0, eventType, s.id, seqNum, timestamp, r.body);
  }

  lemma SignatureNotEmpty(mac: Mac, secret: string, contentType: string, eventType: string, id: string, seqNum: nat, timestamp: Time, body: string)
    ensures Signature(mac, secret, contentType, eventType, id, seqNum, timestamp, body) != ""
  {
    hide Preimage, Hex;
    HexLength(mac(secret, Preimage(contentType, eventType, id, seqNum, timestamp, body)));
  }

  // There is a request exactly if there is nothing to encode or the encoder succeeds, and it carries the content.
  lemma RequestCarriesContent(mac: Mac, timestamp: Time, eventType: string, s: GatewaySubscription, seqNum: nat, rep: Option<Representation>)
    ensures var req := EmitRequest(mac, timestamp, eventType, s, seqNum, rep);
            && (req.Some? <==> rep.None? || exists ct :: FirstEncodable(s.accept, ct) && rep.value(ct).Some?)
            && (req.Some? ==>
                  && req.value.method_ == "POST" && Carries(req.value, s.accept, rep)
                  && Get(req.value.header, EVENT_TYPE) == eventType && Get(req.value.header, SUBSCRIPTION_ID) == s.id
                  && Get(req.value.header, CORRELATION_ID) == s.correlationID
                  && Get(req.value.header, SEQUENCE_NUMBER) == FormatUint(seqNum)
                  && Get(req.value.header, EVENT_TIMESTAMP) == FormatInt(timestamp.unix)
                  && Get(req.value.header, EVENT_SIGNATURE)
                     == Hex(mac(s.signingSecret, Preimage(Get(req.value.header, CONTENT_TYPE), eventType, s.id, seqNum, timestamp, req.value.body))))
  {
    hide FormatUint, FormatInt, Negotiate, Preimage, Hex, FirstEncodable;
    NegotiatedIsFirst(s.accept);
  }

  // Main result: the connector accepts an emitted event exactly when it names a subscription and a known event
  // type and carries a body unless it is a cancellation. It then recovers everything the gateway put in, the
  // time to the second, and the signature it recomputes from the parsed header is the one it was sent.
  lemma EventRoundTrip(mac: Mac, timestamp: Time, eventType: string, s: GatewaySubscription, seqNum: nat, rep: Option<Representation>)
    requires seqNum <= MAX_UINT64 && MIN_INT64 <= timestamp.unix <= MAX_INT64
    requires EmitRequest(mac, timestamp, eventType, s, seqNum, rep).Some?
    ensures var r := EmitRequest(mac, timestamp, eventType, s, seqNum, rep).value;
            var p := ParseEventHeader(r);
            && (p.Ok? <==> s.id != "" && KnownEvent(eventType) && (rep.Some? || eventType == SUBSCRIPTION_CANCELED))
            && Carries(r, s.accept, rep)
            && (p.Ok? ==>
                  && p.header.contentType == Get(r.header, CONTENT_TYPE)
                  && p.header.correlationID == s.correlationID && p.header.id == s.id && p.header.eventType == eventType
                  && p.header.contentType == EmittedBody(s, rep).value.0 && r.body == EmittedBody(s, rep).value.1
                  && p.header.sequenceNumber == seqNum && p.header.eventTimestamp == Time(timestamp.unix, 0)
                  && p.header.acceptEncoding == [] && p.header.contentEncoding == ""
                  && p.header.eventSignature == Signature(mac, s.signingSecret, p.header.contentType, p.header.eventType,
                       p.header.id, p.header.sequenceNumber, p.header.eventTimestamp, r.body))
  {
    Emitted(mac, timestamp, eventType, s, seqNum, rep);
    RequestCarriesContent(mac, timestamp, eventType, s, seqNum, rep);
    ParseUintInvertsFormat(seqNum);
    FormatValue(seqNum);
    ParseIntInvertsFormat(timestamp.unix);
    FormatIntNoColon(timestamp.unix);
  }

  // ---- Any request -----------------------------------------------------------------------------------

  lemma {:induction false} SplitCommaOne(s: string)
    ensures |SplitComma(s)| >= 1 && (|SplitComma(s)| == 1 <==> ',' !in s)
    ensures ',' !in s ==> SplitComma(s) == [s]
  {
    var i := IndexOf(s, ',');
    if i < |s| {
      SplitCommaOne(s[i + 1..]);
    } else {
      assert s[..i] == s;
    }
  }

  // What the connector accepts from anybody, and what it reads off it; what it complains of is the header it names.
  lemma AcceptedExactly(r: Request)
    ensures var p := ParseEventHeader(r);
            var ct := Get(r.header, CONTENT_TYPE);
            && (p.Ok? <==>
                  && Get(r.header, SUBSCRIPTION_ID) != "" && KnownEvent(Get(r.header, EVENT_TYPE))
                  && (ct == JSON || ct == VND_OCF_CBOR || (ct == "" && Get(r.header, EVENT_TYPE) == SUBSCRIPTION_CANCELED))
                  && ParseUint(Get(r.header, SEQUENCE_NUMBER)).Some? && ParseInt(Get(r.header, EVENT_TIMESTAMP)).Some?
                  && Get(r.header, EVENT_SIGNATURE) != ""
                  && (r.method_ == "POST" ==> ',' !in Get(r.header, ACCEPT_ENCODING)))
            && (p.Ok? ==>
                  && p.header.id == Get(r.header, SUBSCRIPTION_ID) && p.header.eventType == Get(r.header, EVENT_TYPE)
                  && p.header.contentType == ct && p.header.correlationID == Get(r.header, CORRELATION_ID)
                  && Some(p.header.sequenceNumber) == ParseUint(Get(r.header, SEQUENCE_NUMBER))
                  && Some(p.header.eventTimestamp.unix) == ParseInt(Get(r.header, EVENT_TIMESTAMP))
                  && p.header.eventSignature == Get(r.header, EVENT_SIGNATURE)
                  && p.header.contentEncoding == Get(r.header, CONTENT_ENCODING)
                  && p.header.acceptEncoding == if r.method_ == "POST" && Get(r.header, ACCEPT_ENCODING) != "" then [Get(r.header, ACCEPT_ENCODING)] else [])
            && (p.InvalidKey? ==> Get(r.header, p.key) == "")
            && (p.InvalidValue? ==> p.value == Get(r.header, p.key))
  {
    hide Value, IndexOf, SplitComma;
    SplitCommaOne(Get(r.header, ACCEPT_ENCODING));
  }
}
