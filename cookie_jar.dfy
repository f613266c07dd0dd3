/** The browser cookie jar as `document.cookie` exposes it, and the lookup `getConsent` runs over it. */
module CookieJar {
  import opened Wrappers
  import opened Text
  import opened ConsentCodec

  /** The name of the one cookie the consent manager owns. */
  const CONSENT_COOKIE := "oak_cookie_consent"

  datatype Cookie = Cookie(name: string, value: string)

  /** The cookies visible to the page, in the order `document.cookie` lists them. */
  type Jar = seq<Cookie>

  /** What a browser stores for an assignment to `document.cookie` (section 5.2 of RFC 6265):
    * the name holds no `;` or `=`, the value no `;`, and both come trimmed; nameless cookies
    * are not part of this model. */
  predicate WellFormedCookie(c: Cookie) {
    |c.name| > 0 && ';' !in c.name && '=' !in c.name
    && !IsJsSpace(c.name[0]) && !IsJsSpace(c.name[|c.name| - 1])
    && ';' !in c.value && (c.value == [] || (!IsJsSpace(c.value[0]) && !IsJsSpace(c.value[|c.value| - 1])))
  }

  predicate WellFormed(jar: Jar) {
    forall i :: 0 <= i < |jar| ==> WellFormedCookie(jar[i])
  }

  /** `name=value` */
  function Pair(c: Cookie): string {
    c.name + "=" + c.value
  }

  /** The pieces of the `document.cookie` text between its `;` separators: every pair after
    * the first carries the space of the `; ` separator. */
  function Segments(jar: Jar): seq<string> {
    seq(|jar|, i requires 0 <= i < |jar| => if i == 0 then Pair(jar[i]) else " " + Pair(jar[i]))
  }

  /** The `document.cookie` getter: `n1=v1; n2=v2`. */
  function Render(jar: Jar): string {
    Join(Segments(jar), ';')
  }

  /** The value of the first cookie with this name. */
  function FindCookie(jar: Jar, name: string): Option<string> {
    if jar == [] then None
    else if jar[0].name == name then Some(jar[0].value)
    else FindCookie(jar[1..], name)
  }

  /** Every cookie of this name given the new value, in place; the others untouched. */
  function ReplaceValue(jar: Jar, name: string, value: string): Jar {
    if jar == [] then []
    else [if jar[0].name == name then Cookie(name, value) else jar[0]] + ReplaceValue(jar[1..], name, value)
  }

  /** Assigning `name=value` to `document.cookie` (section 5.3 of RFC 6265): an existing cookie of
    * that name keeps its place and takes the new value, otherwise the cookie is added last. */
  function SetCookie(jar: Jar, name: string, value: string): Jar {
    if FindCookie(jar, name).Some? then ReplaceValue(jar, name, value) else jar + [Cookie(name, value)]
  }

  /** Assigning an already expired cookie of this name: the cookie is gone, the others stay. */
  function RemoveCookie(jar: Jar, name: string): Jar {
    if jar == [] then []
    else if jar[0].name == name then RemoveCookie(jar[1..], name)
    else [jar[0]] + RemoveCookie(jar[1..], name)
  }

  /** Replacing values finds the new value under the name, if the name was there, and the old
    * values under every other name; a well-formed jar stays well formed. */
  lemma {:induction false} ReplaceValueFind(jar: Jar, name: string, value: string, n: string)
    ensures FindCookie(ReplaceValue(jar, name, value), n) ==
      if n == name && FindCookie(jar, name).Some? then Some(value) else FindCookie(jar, n)
    ensures WellFormed(jar) && WellFormedCookie(Cookie(name, value)) ==> WellFormed(ReplaceValue(jar, name, value))
    decreases |jar|
  {
    if jar != [] {
      ReplaceValueFind(jar[1..], name, value, n);
      var head := if jar[0].name == name then Cookie(name, value) else jar[0];
      var r := [head] + ReplaceValue(jar[1..], name, value);
      assert r[1..] == ReplaceValue(jar[1..], name, value);
      if WellFormed(jar) && WellFormedCookie(Cookie(name, value)) {
        assert WellFormed(jar[1..]) by {
          forall i | 0 <= i < |jar[1..]| ensures WellFormedCookie(jar[1..][i]) {
            assert jar[1..][i] == jar[i + 1];
          }
        }
        forall i | 0 <= i < |r| ensures WellFormedCookie(r[i]) {
          if i > 0 {
            assert r[i] == r[1..][i - 1];
          }
        }
      }
    }
  }

  /** Looking a name up after appending a cookie. */
  lemma {:induction false} FindCookieAppend(jar: Jar, c: Cookie, n: string)
    ensures FindCookie(jar + [c], n) ==
      if FindCookie(jar, n).Some? then FindCookie(jar, n)
      else if c.name == n then Some(c.value) else None
    decreases |jar|
  {
    if jar == [] {
      assert jar + [c] == [c];
    } else {
      assert (jar + [c])[1..] == jar[1..] + [c];
      FindCookieAppend(jar[1..], c, n);
    }
  }

  /** After the assignment the name holds the new value, every other name its old one, and a
    * well-formed jar stays well formed. */
  lemma SetCookieFind(jar: Jar, name: string, value: string, n: string)
    ensures FindCookie(SetCookie(jar, name, value), n) == if n == name then Some(value) else FindCookie(jar, n)
    ensures WellFormed(jar) && WellFormedCookie(Cookie(name, value)) ==> WellFormed(SetCookie(jar, name, value))
  {
    if FindCookie(jar, name).Some? {
      ReplaceValueFind(jar, name, value, n);
    } else {
      FindCookieAppend(jar, Cookie(name, value), n);
    }
  }

  /** After the removal the name holds nothing, every other name its old value, and a
    * well-formed jar stays well formed. */
  lemma {:induction false} RemoveCookieFind(jar: Jar, name: string, n: string)
    ensures FindCookie(RemoveCookie(jar, name), n) == if n == name then None else FindCookie(jar, n)
    ensures WellFormed(jar) ==> WellFormed(RemoveCookie(jar, name))
    decreases |jar|
  {
    if jar != [] {
      RemoveCookieFind(jar[1..], name, n);
      var rest := RemoveCookie(jar[1..], name);
      if WellFormed(jar) {
        assert WellFormed(jar[1..]) by {
          forall i | 0 <= i < |jar[1..]| ensures WellFormedCookie(jar[1..][i]) {
            assert jar[1..][i] == jar[i + 1];
          }
        }
      }
      if jar[0].name != name {
        var r := [jar[0]] + rest;
        assert r[1..] == rest;
        if WellFormed(jar) {
          forall i | 0 <= i < |r| ensures WellFormedCookie(r[i]) {
            if i > 0 {
              assert r[i] == rest[i - 1];
            }
          }
        }
      }
    }
  }

  /** The name part of a `document.cookie` segment: `cookie.trim().split('=')[0]`. */
  function SegmentName(segment: string): string {
    Split(Trim(segment), '=')[0]
  }

  /** The value part of a segment, `cookie.trim().split('=')[1]`; with no `=` JavaScript gives
    * `undefined`, which `decodeURIComponent` turns into the text "undefined". */
  function SegmentValue(segment: string): string {
    var parts := Split(Trim(segment), '=');
    if |parts| > 1 then parts[1] else "undefined"
  }

  /** The scan of `getConsent` over the segments: the first segment named `oak_cookie_consent`
    * decides, and the result is its parsed value, or None (`null`) where parsing throws. */
  function ReadSegments(segments: seq<string>): Option<ConsentRecord> {
    if segments == [] then None
    else if SegmentName(segments[0]) == CONSENT_COOKIE then DecodeValue(SegmentValue(segments[0]))
    else ReadSegments(segments[1..])
  }

  /** `getConsent()` on a `document.cookie` text. */
  function ReadConsent(cookies: string): Option<ConsentRecord> {
    ReadSegments(Split(cookies, ';'))
  }

  /** No segment named `oak_cookie_consent` means no consent. */
  lemma {:induction false} ReadSegmentsNoMatch(segments: seq<string>)
    requires forall j :: 0 <= j < |segments| ==> SegmentName(segments[j]) != CONSENT_COOKIE
    ensures ReadSegments(segments) == None
    decreases |segments|
  {
    if segments != [] {
      ReadSegmentsNoMatch(segments[1..]);
    }
  }

  /** Only the first segment named `oak_cookie_consent` is examined: its value decides, even when
    * it fails to parse and a later one would not. */
  lemma {:induction false} ReadSegmentsFirstMatch(segments: seq<string>, k: nat)
    requires k < |segments| && SegmentName(segments[k]) == CONSENT_COOKIE
    requires forall j :: 0 <= j < k ==> SegmentName(segments[j]) != CONSENT_COOKIE
    ensures ReadSegments(segments) == DecodeValue(SegmentValue(segments[k]))
    decreases k
  {
    if k > 0 {
      ReadSegmentsFirstMatch(segments[1..], k - 1);
    }
  }

  /** The value of a segment is the text between its first and second `=`: whatever follows a
    * second `=` is dropped. */
  lemma SegmentValueOf(name: string, value: string)
    requires '=' !in name && name != [] && !IsJsSpace(name[0])
    requires value == [] || !IsJsSpace(value[|value| - 1])
    ensures var v := SegmentValue(name + "=" + value);
      SegmentName(name + "=" + value) == name && '=' !in v && |v| <= |value| && value[..|v|] == v
      && (|v| == |value| || value[|v|] == '=')
  {
    var t := name + "=" + value;
    var last := if value == [] then '=' else value[|value| - 1];
    assert t[|t| - 1] == last;
    TrimTrimmed(t);
    SplitAfterPiece(name, '=', value);
    var parts := Split(value, '=');
    JoinHead(parts, '=');
    if |parts| > 1 {
      assert Join(parts, '=') == parts[0] + ['='] + Join(parts[1..], '=');
    }
  }

  /** Every segment of a well-formed jar is free of `;`, which lets `split(';')` recover them. */
  lemma SegmentsSplit(jar: Jar)
    requires WellFormed(jar) && |jar| > 0
    ensures Split(Render(jar), ';') == Segments(jar)
  {
    var segs := Segments(jar);
    forall i | 0 <= i < |segs| ensures ';' !in segs[i] {
      assert WellFormedCookie(jar[i]);
    }
    SplitJoin(segs, ';');
  }

  /** A well-formed cookie's pair has no white space at either end. */
  lemma PairTrimmed(c: Cookie)
    requires WellFormedCookie(c)
    ensures Trim(Pair(c)) == Pair(c) && Trim(" " + Pair(c)) == Pair(c)
  {
    var p := Pair(c);
    var last := if c.value == [] then '=' else c.value[|c.value| - 1];
    assert p[0] == c.name[0] && p[|p| - 1] == last;
    TrimTrimmed(p);
  }

  /** A well-formed cookie's pair splits at `=` into its name and the pieces of its value. */
  lemma PairSplit(c: Cookie)
    requires WellFormedCookie(c)
    ensures Split(Pair(c), '=') == [c.name] + Split(c.value, '=')
  {
    SplitAfterPiece(c.name, '=', c.value);
  }

  /** A rendered cookie trims to its `name=value` pair, whose name and value `getConsent` recovers. */
  lemma SegmentOfCookie(jar: Jar, i: nat)
    requires WellFormed(jar) && i < |jar|
    ensures SegmentName(Segments(jar)[i]) == jar[i].name
    ensures SegmentValue(Segments(jar)[i]) == Split(jar[i].value, '=')[0]
  {
    assert WellFormedCookie(jar[i]);
    PairTrimmed(jar[i]);
    assert Trim(Segments(jar)[i]) == Pair(jar[i]);
    PairSplit(jar[i]);
  }

  /** Segments that name and value the cookies of `cookies` one for one scan to what the cookies hold. */
  lemma {:induction false} ReadSegmentsOfCookies(segments: seq<string>, cookies: Jar)
    requires |segments| == |cookies|
    requires forall i :: 0 <= i < |segments| ==> SegmentName(segments[i]) == cookies[i].name
    requires forall i :: 0 <= i < |segments| ==> SegmentValue(segments[i]) == Split(cookies[i].value, '=')[0]
    ensures ReadSegments(segments) ==
      match FindCookie(cookies, CONSENT_COOKIE)
      case None => None
      case Some(v) => DecodeValue(Split(v, '=')[0])
    decreases |segments|
  {
    if segments != [] {
      ReadSegmentsOfCookies(segments[1..], cookies[1..]);
    }
  }

  /** What `getConsent` finds in a jar: the first `oak_cookie_consent` cookie's value up to any
    * further `=`, decoded and parsed. */
  function StoredConsent(jar: Jar): Option<ConsentRecord> {
    match FindCookie(jar, CONSENT_COOKIE)
    case None => None
    case Some(v) => DecodeValue(Split(v, '=')[0])
  }

  /** Reading the rendered `document.cookie` text agrees with looking the cookie up in the jar. */
  lemma ReadRenderedJar(jar: Jar)
    requires WellFormed(jar)
    ensures ReadConsent(Render(jar)) == StoredConsent(jar)
  {
    if jar == [] {
      assert Split("", ';') == [""];
      assert SegmentName("") == "";
      assert ReadSegments([""]) == ReadSegments([]);
    } else {
      SegmentsSplit(jar);
      forall i | 0 <= i < |jar|
        ensures SegmentName(Segments(jar)[i]) == jar[i].name
        ensures SegmentValue(Segments(jar)[i]) == Split(jar[i].value, '=')[0]
      {
        SegmentOfCookie(jar, i);
      }
      ReadSegmentsOfCookies(Segments(jar), jar);
    }
  }

  /** The consent cookie written by `saveConsent` reads back as the record written. */
  lemma SaveThenRead(jar: Jar, r: ConsentRecord)
    requires WellFormed(jar)
    requires forall i :: 0 <= i < |r.timestamp| ==> IsIsoChar(r.timestamp[i])
    ensures WellFormed(SetCookie(jar, CONSENT_COOKIE, Encode(r)))
    ensures ReadConsent(Render(SetCookie(jar, CONSENT_COOKIE, Encode(r)))) == Some(r)
  {
    var v := Encode(r);
    EncodeIsCookieSafe(r);
    assert WellFormedCookie(Cookie(CONSENT_COOKIE, v));
    var jar' := SetCookie(jar, CONSENT_COOKIE, v);
    SetCookieFind(jar, CONSENT_COOKIE, v, CONSENT_COOKIE);
    ReadRenderedJar(jar');
    SplitNoSeparator(v, '=');
    DecodeValueEncode(r);
  }

  /** After the consent cookie is removed, `getConsent` finds nothing. */
  lemma RevokeThenRead(jar: Jar)
    requires WellFormed(jar)
    ensures WellFormed(RemoveCookie(jar, CONSENT_COOKIE))
    ensures ReadConsent(Render(RemoveCookie(jar, CONSENT_COOKIE))) == None
  {
    RemoveCookieFind(jar, CONSENT_COOKIE, CONSENT_COOKIE);
    ReadRenderedJar(RemoveCookie(jar, CONSENT_COOKIE));
  }
}
