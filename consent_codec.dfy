/** The stored consent record and how it is turned into a cookie value and back:
  * `JSON.stringify` of the fixed-shape record on the write side, and
  * `JSON.parse(decodeURIComponent(value))` on the read side. */
module ConsentCodec {
  import opened Wrappers
  import opened Text

  /** `{necessary, analytics, marketing, timestamp}`, in the order `saveConsent` builds it. */
  datatype ConsentRecord = ConsentRecord(necessary: bool, analytics: bool, marketing: bool, timestamp: string)

  /** The characters `Date.prototype.toISOString` produces (`2024-05-01T09:30:00.000Z`, `+275760-...`). */
  predicate IsIsoChar(c: char) {
    ('0' <= c <= '9') || c == '-' || c == '+' || c == ':' || c == '.' || c == 'T' || c == 'Z'
  }

  /** A timestamp as `new Date().toISOString()` yields it; its value comes from the clock. */
  type IsoTimestamp = s: string | forall i :: 0 <= i < |s| ==> IsIsoChar(s[i])

  const NECESSARY_KEY := "{\"necessary\":"
  const ANALYTICS_KEY := ",\"analytics\":"
  const MARKETING_KEY := ",\"marketing\":"
  const TIMESTAMP_KEY := ",\"timestamp\":\""
  const CLOSING := "\"}"

  /** A `"key":true` or `"key":false` member, with what follows it. */
  function BoolMember(key: string, b: bool, rest: string): string {
    key + BoolText(b) + rest
  }

  /** `JSON.stringify(consent)` for the record `saveConsent` writes. */
  function Encode(r: ConsentRecord): string {
    BoolMember(NECESSARY_KEY, r.necessary,
      BoolMember(ANALYTICS_KEY, r.analytics,
        BoolMember(MARKETING_KEY, r.marketing, TIMESTAMP_KEY + r.timestamp + CLOSING)))
  }

  function StripPrefix(s: string, p: string): Option<string> {
    if StartsWith(s, p) then Some(s[|p|..]) else None
  }

  function ParseBool(s: string): Option<(bool, string)> {
    if StartsWith(s, "true") then Some((true, s[4..]))
    else if StartsWith(s, "false") then Some((false, s[5..]))
    else None
  }

  /** The boolean member named by `key` at the start of `s`, and the text after it. */
  function ParseBoolMember(s: string, key: string): Option<(bool, string)> {
    var t :- StripPrefix(s, key);
    ParseBool(t)
  }

  /** A character that may stand unescaped inside a JSON string: not a quote, not a
    * backslash, and not a control character (U+0000 to U+001F), which `JSON.parse` rejects
    * and `JSON.stringify` escapes. */
  predicate IsPlainChar(c: char) {
    c >= ' ' && c != '"' && c != '\\'
  }

  /** A JSON string body written without escape sequences. */
  predicate PlainStringBody(s: string) {
    forall c | c in s :: IsPlainChar(c)
  }

  /** The text of the timestamp string and the closing `"}` that must end the record. */
  function ParseTimestamp(s: string): Option<string> {
    var t :- StripPrefix(s, TIMESTAMP_KEY);
    if |t| >= 2 && t[|t| - 2..] == CLOSING && PlainStringBody(t[..|t| - 2]) then Some(t[..|t| - 2])
    else None
  }

  /** `JSON.parse` restricted to the fixed shape `Encode` writes; None where it would throw
    * or yield something of another shape. */
  function Decode(s: string): Option<ConsentRecord> {
    var (necessary, s1) :- ParseBoolMember(s, NECESSARY_KEY);
    var (analytics, s2) :- ParseBoolMember(s1, ANALYTICS_KEY);
    var (marketing, s3) :- ParseBoolMember(s2, MARKETING_KEY);
    var timestamp :- ParseTimestamp(s3);
    Some(ConsentRecord(necessary, analytics, marketing, timestamp))
  }

  lemma StripPrefixOf(p: string, t: string)
    ensures StripPrefix(p + t, p) == Some(t)
  {
    assert (p + t)[..|p|] == p;
  }

  lemma StripPrefixSome(s: string, p: string, t: string)
    requires StripPrefix(s, p) == Some(t)
    ensures s == p + t
  {
    assert s == s[..|p|] + s[|p|..];
  }

  /** A member parses back to its flag and the text after it. */
  lemma ParseBoolMemberOf(key: string, b: bool, rest: string)
    ensures ParseBoolMember(BoolMember(key, b, rest), key) == Some((b, rest))
  {
    var t := BoolText(b) + rest;
    assert BoolMember(key, b, rest) == key + t;
    StripPrefixOf(key, t);
    assert t[..|BoolText(b)|] == BoolText(b);
    if !b {
      assert t[0] == 'f';
      assert t[..4] != "true";
    }
  }

  /** Whatever parses as a member is that member's text. */
  lemma ParseBoolMemberSome(s: string, key: string, b: bool, rest: string)
    requires ParseBoolMember(s, key) == Some((b, rest))
    ensures s == BoolMember(key, b, rest)
  {
    var t := StripPrefix(s, key).value;
    StripPrefixSome(s, key, t);
    if b {
      assert t == t[..4] + t[4..];
    } else {
      assert t == t[..5] + t[5..];
    }
  }

  /** The timestamp member and the closing brace parse back to the timestamp. */
  lemma ParseTimestampOf(timestamp: string)
    requires PlainStringBody(timestamp)
    ensures ParseTimestamp(TIMESTAMP_KEY + timestamp + CLOSING) == Some(timestamp)
  {
    var t := timestamp + CLOSING;
    assert TIMESTAMP_KEY + timestamp + CLOSING == TIMESTAMP_KEY + t;
    StripPrefixOf(TIMESTAMP_KEY, t);
    assert t[..|t| - 2] == timestamp;
  }

  /** Decoding, step by step: the three members in order, then the timestamp. */
  lemma DecodeSteps(s: string, r: ConsentRecord, s1: string, s2: string, s3: string)
    requires ParseBoolMember(s, NECESSARY_KEY) == Some((r.necessary, s1))
    requires ParseBoolMember(s1, ANALYTICS_KEY) == Some((r.analytics, s2))
    requires ParseBoolMember(s2, MARKETING_KEY) == Some((r.marketing, s3))
    requires ParseTimestamp(s3) == Some(r.timestamp)
    ensures Decode(s) == Some(r)
  {
  }

  /** The stored text decodes to the record written, provided the timestamp needs no JSON escape. */
  lemma DecodeEncode(r: ConsentRecord)
    requires PlainStringBody(r.timestamp)
    ensures Decode(Encode(r)) == Some(r)
  {
    var t3 := TIMESTAMP_KEY + r.timestamp + CLOSING;
    var t2 := BoolMember(MARKETING_KEY, r.marketing, t3);
    var t1 := BoolMember(ANALYTICS_KEY, r.analytics, t2);
    ParseBoolMemberOf(NECESSARY_KEY, r.necessary, t1);
    ParseBoolMemberOf(ANALYTICS_KEY, r.analytics, t2);
    ParseBoolMemberOf(MARKETING_KEY, r.marketing, t3);
    ParseTimestampOf(r.timestamp);
    DecodeSteps(Encode(r), r, t1, t2, t3);
  }

  /** Whatever the timestamp member parses from is that member's text. */
  lemma ParseTimestampSome(s: string, timestamp: string)
    requires ParseTimestamp(s) == Some(timestamp)
    ensures s == TIMESTAMP_KEY + timestamp + CLOSING && PlainStringBody(timestamp)
  {
    var t := StripPrefix(s, TIMESTAMP_KEY).value;
    StripPrefixSome(s, TIMESTAMP_KEY, t);
    assert t == t[..|t| - 2] + CLOSING;
  }

  /** A successful decode, taken apart into its steps. */
  lemma DecodeSome(s: string, r: ConsentRecord) returns (s1: string, s2: string, s3: string)
    requires Decode(s) == Some(r)
    ensures ParseBoolMember(s, NECESSARY_KEY) == Some((r.necessary, s1))
    ensures ParseBoolMember(s1, ANALYTICS_KEY) == Some((r.analytics, s2))
    ensures ParseBoolMember(s2, MARKETING_KEY) == Some((r.marketing, s3))
    ensures ParseTimestamp(s3) == Some(r.timestamp)
  {
    s1 := ParseBoolMember(s, NECESSARY_KEY).value.1;
    s2 := ParseBoolMember(s1, ANALYTICS_KEY).value.1;
    s3 := ParseBoolMember(s2, MARKETING_KEY).value.1;
  }

  /** Only the canonical text decodes: whatever decodes is the encoding of what it decodes to. */
  lemma EncodeDecode(s: string, r: ConsentRecord)
    requires Decode(s) == Some(r)
    ensures Encode(r) == s && PlainStringBody(r.timestamp)
  {
    var s1, s2, s3 := DecodeSome(s, r);
    ParseBoolMemberSome(s, NECESSARY_KEY, r.necessary, s1);
    ParseBoolMemberSome(s1, ANALYTICS_KEY, r.analytics, s2);
    ParseBoolMemberSome(s2, MARKETING_KEY, r.marketing, s3);
    ParseTimestampSome(s3, r.timestamp);
  }

  /** The value of a hexadecimal digit. */
  function HexValue(c: char): Option<nat> {
    if '0' <= c <= '9' then Some(c as nat - '0' as nat)
    else if 'a' <= c <= 'f' then Some(c as nat - 'a' as nat + 10)
    else if 'A' <= c <= 'F' then Some(c as nat - 'A' as nat + 10)
    else None
  }

  /** `decodeURIComponent`, for escapes of single-byte (ASCII) characters; None where it throws
    * a URIError, and also for escapes of multi-byte UTF-8 sequences. */
  function UriDecode(s: string): Option<string>
    decreases |s|
  {
    if s == [] then Some("")
    else if s[0] != '%' then
      var rest :- UriDecode(s[1..]);
      Some([s[0]] + rest)
    else if |s| < 3 then None
    else
      var hi :- HexValue(s[1]);
      var lo :- HexValue(s[2]);
      var b := hi * 16 + lo;
      if b < 0x80 then
        var rest :- UriDecode(s[3..]);
        Some([b as char] + rest)
      else None
  }

  /** Text without a `%` decodes to itself. */
  lemma {:induction false} UriDecodePlain(s: string)
    requires '%' !in s
    ensures UriDecode(s) == Some(s)
    decreases |s|
  {
    if s != [] {
      UriDecodePlain(s[1..]);
      assert [s[0]] + s[1..] == s;
    }
  }

  /** The record that a cookie value yields: `JSON.parse(decodeURIComponent(value))`,
    * with None for a thrown exception (which `getConsent` turns into `null`). */
  function DecodeValue(value: string): Option<ConsentRecord> {
    var text :- UriDecode(value);
    Decode(text)
  }

  /** Text free of the characters that the cookie syntax and the URI decoding reserve. */
  predicate CookieSafe(s: string) {
    ';' !in s && '=' !in s && '%' !in s
  }

  lemma BoolMemberSafe(key: string, b: bool, rest: string)
    requires CookieSafe(key) && CookieSafe(rest)
    ensures CookieSafe(BoolMember(key, b, rest))
  {
    assert CookieSafe(BoolText(b));
  }

  lemma KeysSafe()
    ensures CookieSafe(NECESSARY_KEY) && CookieSafe(ANALYTICS_KEY) && CookieSafe(MARKETING_KEY)
  {
  }

  lemma TimestampMemberSafe(ts: string)
    requires CookieSafe(ts)
    ensures CookieSafe(TIMESTAMP_KEY + ts + CLOSING)
  {
    assert CookieSafe(TIMESTAMP_KEY) && CookieSafe(CLOSING);
  }

  /** An ISO timestamp needs no JSON escape and holds no reserved cookie character. */
  lemma IsoTimestampIsPlain(ts: string)
    requires forall i :: 0 <= i < |ts| ==> IsIsoChar(ts[i])
    ensures CookieSafe(ts) && PlainStringBody(ts)
  {
    forall c | c in ts ensures IsIsoChar(c) {
      var i :| 0 <= i < |ts| && ts[i] == c;
    }
  }

  lemma BoolMemberThen(key: string, b: bool, rest: string, tail: string)
    ensures BoolMember(key, b, rest + tail) == BoolMember(key, b, rest) + tail
  {
  }

  lemma EndsOfConcat(a: string, b: string)
    requires |a| > 0 && |b| > 0
    ensures (a + b)[0] == a[0] && (a + b)[|a + b| - 1] == b[|b| - 1]
  {
  }

  /** The written text is its members followed by the closing `"}`. */
  lemma EncodeThenClosing(r: ConsentRecord) returns (t1: string)
    ensures Encode(r) == BoolMember(NECESSARY_KEY, r.necessary, t1) + CLOSING
  {
    var t3 := TIMESTAMP_KEY + r.timestamp;
    BoolMemberThen(MARKETING_KEY, r.marketing, t3, CLOSING);
    var t2 := BoolMember(MARKETING_KEY, r.marketing, t3);
    BoolMemberThen(ANALYTICS_KEY, r.analytics, t2, CLOSING);
    t1 := BoolMember(ANALYTICS_KEY, r.analytics, t2);
    BoolMemberThen(NECESSARY_KEY, r.necessary, t1, CLOSING);
  }

  lemma NecessaryMemberOpens(b: bool, rest: string)
    ensures |BoolMember(NECESSARY_KEY, b, rest)| > 0 && BoolMember(NECESSARY_KEY, b, rest)[0] == '{'
  {
    var tail := BoolText(b) + rest;
    assert BoolMember(NECESSARY_KEY, b, rest) == NECESSARY_KEY + tail;
    EndsOfConcat(NECESSARY_KEY, tail);
  }

  /** The written text starts with `{` and ends with `}`. */
  lemma EncodeBraces(r: ConsentRecord)
    ensures var v := Encode(r); |v| > 0 && v[0] == '{' && v[|v| - 1] == '}'
  {
    var t1 := EncodeThenClosing(r);
    NecessaryMemberOpens(r.necessary, t1);
    EndsOfConcat(BoolMember(NECESSARY_KEY, r.necessary, t1), CLOSING);
  }

  /** A written record's text holds none of the characters the cookie syntax or the URI decoding reserve,
    * and does not begin or end with white space. */
  lemma EncodeIsCookieSafe(r: ConsentRecord)
    requires forall i :: 0 <= i < |r.timestamp| ==> IsIsoChar(r.timestamp[i])
    ensures var v := Encode(r); CookieSafe(v) && |v| > 0 && !IsJsSpace(v[0]) && !IsJsSpace(v[|v| - 1])
    ensures PlainStringBody(r.timestamp)
  {
    IsoTimestampIsPlain(r.timestamp);
    KeysSafe();
    var t3 := TIMESTAMP_KEY + r.timestamp + CLOSING;
    TimestampMemberSafe(r.timestamp);
    BoolMemberSafe(MARKETING_KEY, r.marketing, t3);
    var t2 := BoolMember(MARKETING_KEY, r.marketing, t3);
    BoolMemberSafe(ANALYTICS_KEY, r.analytics, t2);
    var t1 := BoolMember(ANALYTICS_KEY, r.analytics, t2);
    BoolMemberSafe(NECESSARY_KEY, r.necessary, t1);
    EncodeBraces(r);
  }

  /** The value `saveConsent` writes reads back as the same record. */
  lemma DecodeValueEncode(r: ConsentRecord)
    requires forall i :: 0 <= i < |r.timestamp| ==> IsIsoChar(r.timestamp[i])
    ensures DecodeValue(Encode(r)) == Some(r)
  {
    EncodeIsCookieSafe(r);
    UriDecodePlain(Encode(r));
    DecodeEncode(r);
  }
}
