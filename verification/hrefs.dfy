/**
 * Hrefs: the normal form the CoAP gateway brings published hrefs into, and the device prefix the cloud-to-cloud
 * gateway puts on and the connector takes off. Strings are sequences of bytes written as characters.
 */
module Hrefs {
  import opened Records

  // ---- strings.Split and strings.Join with separator "/" ---------------------------------------------

  function Split(s: string): (parts: seq<string>)
    ensures parts != []
  {
    if s == "" then [""]
    else
      var rest := Split(s[1..]);
      if s[0] == '/' then [""] + rest else [[s[0]] + rest[0]] + rest[1..]
  }

  function Join(parts: seq<string>): string {
    if parts == [] then "" else if |parts| == 1 then parts[0] else parts[0] + "/" + Join(parts[1..])
  }

  ghost predicate SlashFree(parts: seq<string>) { forall i :: 0 <= i < |parts| ==> '/' !in parts[i] }

  lemma {:induction false} JoinInvertsSplit(s: string)
    ensures Join(Split(s)) == s && SlashFree(Split(s))
  {
    if s != "" {
      JoinInvertsSplit(s[1..]);
      var rest := Split(s[1..]);
      if s[0] == '/' {
        assert Join([""] + rest) == "" + "/" + Join(rest) by { assert ([""] + rest)[1..] == rest; }
      } else {
        var parts := [[s[0]] + rest[0]] + rest[1..];
        assert parts[1..] == rest[1..];
        assert Join(parts) == [s[0]] + Join(rest);
      }
    }
  }

  lemma {:induction false} SplitSlashFree(s: string)
    requires '/' !in s
    ensures Split(s) == [s]
  {
    if s != "" {
      SplitSlashFree(s[1..]);
      assert [s[0]] + s[1..] == s;
    }
  }

  // Cutting at a slash cuts the list of segments.
  lemma {:induction false} SplitAtSlash(a: string, b: string)
    ensures Split(a + "/" + b) == Split(a) + Split(b)
  {
    if a == "" {
      assert (a + "/" + b)[1..] == b;
    } else {
      assert (a + "/" + b)[1..] == a[1..] + "/" + b;
      SplitAtSlash(a[1..], b);
    }
  }

  lemma {:induction false} SplitInvertsJoin(parts: seq<string>)
    requires parts != [] && SlashFree(parts)
    ensures Split(Join(parts)) == parts
  {
    SplitSlashFree(parts[0]);
    if |parts| > 1 {
      SplitInvertsJoin(parts[1..]);
      SplitAtSlash(parts[0], Join(parts[1..]));
    }
  }

  // ---- The device prefix -----------------------------------------------------------------------------

  function GetHref(deviceID: string, href: string): string {
    "/" + deviceID + href
  }

  // Slicing off two segments crashes the original when there are not as many: None.
  function RemoveDeviceIDFromHref(href: string): Option<string> {
    var hrefsp := Split(href);
    if |hrefsp| < 2 then None else Some("/" + Join(hrefsp[2..]))
  }

  predicate HasPrefix(s: string, prefix: string) { |prefix| <= |s| && s[..|prefix|] == prefix }

  function TrimDeviceIDFromHref(deviceID: string, href: string): string {
    if HasPrefix(href, "/" + deviceID + "/") then href[|"/" + deviceID|..] else href
  }

  predicate StartsWithSlash(s: string) { s != "" && s[0] == '/' }

  lemma RemoveCrashesWithoutSlash(href: string)
    ensures RemoveDeviceIDFromHref(href).None? <==> '/' !in href
  {
    if '/' !in href {
      SplitSlashFree(href);
    } else {
      var i :| 0 <= i < |href| && href[i] == '/';
      assert href == href[..i] + "/" + href[i + 1..];
      SplitAtSlash(href[..i], href[i + 1..]);
    }
  }

  // What taking two segments off a prefixed href gives, for a device ID without slashes.
  lemma RemoveAfterPrefix(d: string, h: string)
    requires '/' !in d && StartsWithSlash(h)
    ensures RemoveDeviceIDFromHref(GetHref(d, h)) == Some(h)
  {
    assert GetHref(d, h) == "" + "/" + (d + h);
    SplitAtSlash("", d + h);
    assert d + h == d + "/" + h[1..];
    SplitAtSlash(d, h[1..]);
    SplitSlashFree(d);
    assert ([""] + ([d] + Split(h[1..])))[2..] == Split(h[1..]);
    JoinInvertsSplit(h[1..]);
    assert h == "/" + h[1..];
  }

  // Main result: taking the device off undoes putting it on exactly when the device ID is free of slashes and
  // the href starts with one.
  lemma RemoveInvertsGetHref(d: string, h: string)
    ensures RemoveDeviceIDFromHref(GetHref(d, h)) == Some(h) <==> '/' !in d && StartsWithSlash(h)
  {
    if '/' !in d && StartsWithSlash(h) {
      RemoveAfterPrefix(d, h);
    } else if '/' in d {
      RemoveFromSlashedDevice(d, h);
    } else {
      RemovedStartsWithSlash(GetHref(d, h));
    }
  }

  lemma RemovedStartsWithSlash(href: string)
    ensures RemoveDeviceIDFromHref(href).Some? ==> StartsWithSlash(RemoveDeviceIDFromHref(href).value)
  {
  }

  lemma PrefixMoved(d: string, i: nat, h: string)
    requires i <= |d|
    ensures GetHref(d, h) == GetHref(d[..i], d[i..] + h)
  {
    assert d == d[..i] + d[i..];
  }

  // Only the part up to the first slash is taken off.
  lemma RemoveFromSlashedDevice(d: string, h: string)
    requires '/' in d
    ensures RemoveDeviceIDFromHref(GetHref(d, h)) == Some(d[FirstSlash(d)..] + h) != Some(h)
  {
    hide RemoveDeviceIDFromHref, GetHref, FirstSlash;
    var i := FirstSlash(d);
    PrefixMoved(d, i, h);
    assert (d[i..] + h)[0] == '/';
    RemoveAfterPrefix(d[..i], d[i..] + h);
    assert |d[i..] + h| > |h|;
  }

  function FirstSlash(s: string): (i: nat)
    requires '/' in s
    ensures i < |s| && s[i] == '/' && '/' !in s[..i]
  {
    if s[0] == '/' then 0 else 1 + FirstSlash(s[1..])
  }

  // The other way of taking it off works for every device ID, and exactly for hrefs that start with a slash.
  lemma TrimInvertsGetHref(d: string, h: string)
    ensures TrimDeviceIDFromHref(d, GetHref(d, h)) == h <==> StartsWithSlash(h)
  {
    var s, p := GetHref(d, h), "/" + d;
    assert s[..|p|] == p && s[|p|..] == h;
    if StartsWithSlash(h) {
      assert s[..|p| + 1] == p + "/";
    } else if h != "" {
      assert s[|p|] == h[0] && (p + "/")[|p|] == '/';
    }
  }

  // So for a device ID without slashes the two agree on every prefixed href.
  lemma RemoveAndTrimAgree(d: string, h: string)
    requires '/' !in d && StartsWithSlash(h)
    ensures RemoveDeviceIDFromHref(GetHref(d, h)) == Some(TrimDeviceIDFromHref(d, GetHref(d, h)))
  {
    RemoveInvertsGetHref(d, h);
    TrimInvertsGetHref(d, h);
  }

  // ---- The normal form -------------------------------------------------------------------------------

  // Runs of slashes become one slash.
  function Collapse(s: string): string {
    if s == "" then ""
    else if s[0] == '/' && |s| > 1 && s[1] == '/' then Collapse(s[1..])
    else [s[0]] + Collapse(s[1..])
  }

  function TrimRight(s: string): (t: string)
    ensures t <= s
  {
    if s != "" && s[|s| - 1] == '/' then TrimRight(s[..|s| - 1]) else s
  }

  function FixHref(href: string): string {
    var p := TrimRight(Collapse(href));
    if |p| > 0 && p[0] == '/' then p else "/" + p
  }

  function NonEmpty(parts: seq<string>): seq<string> {
    if parts == [] then [] else (if parts[0] == "" then [] else [parts[0]]) + NonEmpty(parts[1..])
  }

  // The non-empty segments of an href.
  function Segments(s: string): seq<string> { NonEmpty(Split(s)) }

  lemma {:induction false} NonEmptyConcat(a: seq<string>, b: seq<string>)
    ensures NonEmpty(a + b) == NonEmpty(a) + NonEmpty(b)
  {
    if a == [] {
      assert a + b == b;
    } else {
      assert (a + b)[1..] == a[1..] + b;
      NonEmptyConcat(a[1..], b);
    }
  }

  lemma NonEmptyTail(a: seq<string>, b: seq<string>)
    requires a != [] && b != [] && a[0] == b[0] && NonEmpty(a) == NonEmpty(b)
    ensures NonEmpty(a[1..]) == NonEmpty(b[1..])
  {
    assert [] + NonEmpty(a[1..]) == NonEmpty(a[1..]) && [] + NonEmpty(b[1..]) == NonEmpty(b[1..]);
    if a[0] != "" {
      assert NonEmpty(a)[1..] == NonEmpty(a[1..]) && NonEmpty(b)[1..] == NonEmpty(b[1..]);
    }
  }

  lemma SegmentsAtSlash(a: string, b: string)
    ensures Segments(a + "/" + b) == Segments(a) + Segments(b)
  {
    SplitAtSlash(a, b);
    NonEmptyConcat(Split(a), Split(b));
  }

  lemma {:induction false} NonEmptyParts(parts: seq<string>)
    requires SlashFree(parts)
    ensures SlashFree(NonEmpty(parts)) && forall i :: 0 <= i < |NonEmpty(parts)| ==> NonEmpty(parts)[i] != ""
  {
    if parts != [] {
      NonEmptyParts(parts[1..]);
    }
  }

  // No two slashes in a row, and a last character other than a slash: what collapsing and trimming leave.
  ghost predicate Clean(s: string) {
    && (forall i :: 0 <= i < |s| - 1 ==> s[i] != '/' || s[i + 1] != '/')
    && (s != "" ==> s[|s| - 1] != '/')
  }

  lemma {:induction false} CollapseSegments(s: string)
    ensures Segments(Collapse(s)) == Segments(s)
    ensures Split(Collapse(s))[0] == Split(s)[0]
    ensures forall i :: 0 <= i < |Collapse(s)| - 1 ==> Collapse(s)[i] != '/' || Collapse(s)[i + 1] != '/'
    ensures s != "" ==> Collapse(s) != "" && Collapse(s)[0] == s[0]
  {
    if s != "" {
      CollapseSegments(s[1..]);
      var rest, crest := Split(s[1..]), Split(Collapse(s[1..]));
      if s[0] == '/' {
        if |s| > 1 && s[1] == '/' {
          assert Split(s)[1..] == rest;
        } else {
          assert Collapse(s)[1..] == Collapse(s[1..]);
          assert Split(s)[1..] == rest && Split(Collapse(s))[1..] == crest;
        }
      } else {
        assert Collapse(s)[1..] == Collapse(s[1..]);
        assert Split(s)[1..] == rest[1..] && Split(Collapse(s))[1..] == crest[1..];
        NonEmptyTail(rest, crest);
      }
    }
  }

  lemma NoSegments()
    ensures Segments("") == []
  {
  }

  lemma {:induction false} TrimRightSegments(s: string)
    ensures Segments(TrimRight(s)) == Segments(s)
    ensures TrimRight(s) != "" ==> TrimRight(s)[|TrimRight(s)| - 1] != '/'
  {
    hide Segments;
    if s != "" && s[|s| - 1] == '/' {
      var t := s[..|s| - 1];
      TrimRightSegments(t);
      assert s == t + "/" + "";
      SegmentsAtSlash(t, "");
      NoSegments();
    }
  }

  // A clean string that starts with a slash is the join of its segments; likewise one that does not.
  lemma {:induction false} CleanIsJoin(s: string)
    requires Clean(s) && s != "" && s[0] != '/'
    ensures Split(s) == Segments(s) && Join(Segments(s)) == s
  {
    hide Split, Join, NonEmpty, Clean;
    JoinInvertsSplit(s);
    if '/' !in s {
      SplitSlashFree(s);
      NonEmptyIsIdentity([s]);
    } else {
      hide FirstSlash;
      var i := FirstSlash(s);
      CleanTail(s, i);
      CleanIsJoin(s[i + 1..]);
      FirstSegment(s, i);
    }
  }

  // Behind a slash a clean string is clean, and starts with something else.
  lemma CleanTail(s: string, i: nat)
    requires Clean(s) && i < |s| && s[i] == '/'
    ensures var b := s[i + 1..]; Clean(b) && b != "" && b[0] != '/'
  {
    var b := s[i + 1..];
    assert b != "" && b[0] == s[i + 1] != '/';
    forall k | 0 <= k < |b| - 1 ensures b[k] != '/' || b[k + 1] != '/' {
      assert b[k] == s[i + 1 + k] && b[k + 1] == s[i + 2 + k];
    }
  }

  lemma FirstSegment(s: string, i: nat)
    requires 0 < i < |s| && s[i] == '/' && '/' !in s[..i]
    requires Split(s[i + 1..]) == Segments(s[i + 1..])
    ensures Split(s) == Segments(s)
  {
    hide Split, Segments;
    var a, b := s[..i], s[i + 1..];
    assert s == a + "/" + b;
    SplitAtSlash(a, b);
    SplitSlashFree(a);
    SegmentsAtSlash(a, b);
    SegmentsOfOne(a);
  }

  lemma SegmentsOfOne(a: string)
    requires a != "" && '/' !in a
    ensures Segments(a) == [a]
  {
    hide Split;
    SplitSlashFree(a);
    NonEmptyIsIdentity([a]);
  }

  lemma CleanRootedIsJoin(p: string)
    requires Clean(p) && StartsWithSlash(p)
    ensures p == "/" + Join(Segments(p))
  {
    var q := p[1..];
    assert p == "" + "/" + q;
    SegmentsAtSlash("", q);
    assert Segments("") == [];
    assert q != "" && q[0] == p[1] && q[|q| - 1] == p[|p| - 1];
    assert forall k :: 0 <= k < |q| ==> q[k] == p[k + 1];
    CleanIsJoin(q);
    assert [] + Segments(q) == Segments(q);
    assert p == "/" + q;
  }

  lemma FixedIsClean(href: string)
    ensures var p := TrimRight(Collapse(href));
            && Clean(p) && Segments(p) == Segments(href)
            && FixHref(href) == if StartsWithSlash(p) then p else "/" + p
  {
    CollapseSegments(href);
    TrimRightSegments(Collapse(href));
  }

  // Main result: the normal form of an href is a slash followed by its non-empty segments, joined by slashes.
  lemma FixHrefIsNormalForm(href: string)
    ensures FixHref(href) == "/" + Join(Segments(href))
  {
    hide FixHref, Collapse, TrimRight, Clean, Join;
    FixedIsClean(href);
    var p := TrimRight(Collapse(href));
    if p == "" {
      EmptyJoin();
    } else if p[0] == '/' {
      CleanRootedIsJoin(p);
    } else {
      CleanIsJoin(p);
    }
  }

  lemma EmptyJoin()
    ensures Join(Segments("")) == ""
  {
    assert Segments("") == [];
  }

  lemma SegmentsOfNormalForm(parts: seq<string>)
    requires SlashFree(parts) && forall i :: 0 <= i < |parts| ==> parts[i] != ""
    ensures Segments("/" + Join(parts)) == parts
  {
    var j := Join(parts);
    assert "/" + j == "" + "/" + j;
    SegmentsAtSlash("", j);
    assert Segments("") == [];
    if parts != [] {
      SplitInvertsJoin(parts);
      NonEmptyIsIdentity(parts);
      assert Segments(j) == parts;
    } else {
      assert Segments(j) == parts;
    }
  }

  lemma {:induction false} NonEmptyIsIdentity(parts: seq<string>)
    requires forall i :: 0 <= i < |parts| ==> parts[i] != ""
    ensures NonEmpty(parts) == parts
  {
    if parts != [] {
      NonEmptyIsIdentity(parts[1..]);
    }
  }

  lemma FixHrefKeepsSegments(href: string)
    ensures Segments(FixHref(href)) == Segments(href)
  {
    JoinInvertsSplit(href);
    NonEmptyParts(Split(href));
    FixHrefIsNormalForm(href);
    SegmentsOfNormalForm(Segments(href));
  }

  lemma FixHrefIdempotent(href: string)
    ensures FixHref(FixHref(href)) == FixHref(href)
  {
    FixHrefKeepsSegments(href);
    FixHrefIsNormalForm(href);
    FixHrefIsNormalForm(FixHref(href));
  }

  // Two hrefs have the same normal form exactly when they have the same non-empty segments.
  lemma SameNormalForm(a: string, b: string)
    ensures FixHref(a) == FixHref(b) <==> Segments(a) == Segments(b)
  {
    FixHrefKeepsSegments(a);
    FixHrefKeepsSegments(b);
    FixHrefIsNormalForm(a);
    FixHrefIsNormalForm(b);
  }

  // Normalising the parts of a path first makes no difference.
  lemma FixHrefCompositional(a: string, b: string)
    ensures FixHref(a + "/" + b) == FixHref(FixHref(a) + "/" + FixHref(b))
  {
    SegmentsAtSlash(a, b);
    SegmentsAtSlash(FixHref(a), FixHref(b));
    FixHrefKeepsSegments(a);
    FixHrefKeepsSegments(b);
    SameNormalForm(a + "/" + b, FixHref(a) + "/" + FixHref(b));
  }

  // It starts with a slash, never has two in a row, and ends in one only as the root.
  lemma FixHrefShape(href: string)
    ensures var f := FixHref(href);
            && StartsWithSlash(f)
            && (forall i :: 0 <= i < |f| - 1 ==> f[i] != '/' || f[i + 1] != '/')
            && (f[|f| - 1] == '/' <==> f == "/")
  {
    hide FixHref, Collapse, TrimRight, Segments;
    FixedIsClean(href);
    var p, f := TrimRight(Collapse(href)), FixHref(href);
    if !StartsWithSlash(p) {
      Rooted(p);
    }
  }

  lemma Rooted(p: string)
    requires Clean(p) && !StartsWithSlash(p)
    ensures var f := "/" + p;
            && (forall i :: 0 <= i < |f| - 1 ==> f[i] != '/' || f[i + 1] != '/')
            && (f[|f| - 1] == '/' <==> f == "/")
  {
    assert forall i :: 0 <= i < |p| ==> ("/" + p)[i + 1] == p[i];
  }
}
