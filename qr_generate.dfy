/**
 * src/routes/api/qr/generate/+server.ts: the short-lived QR token. The
 * authenticated user, the clock, the random id and the random signature
 * bytes are parameters; timestamps stay in milliseconds.
 */
module QrGenerate {
  import opened Common
  import opened Base64

  /** Five minutes, in milliseconds. */
  const ExpiresInMs: int := 5 * 60 * 1000

  datatype AuthUser = AuthUser(userId: string, sessionId: string)

  datatype Payload = Payload(uid: string, sid: string, ts: int, exp: int)

  function HexDigitOf(d: nat): (c: char)
    requires d < 16
  {
    if d < 10 then ('0' as int + d) as char else ('a' as int + d - 10) as char
  }

  /** `\u` followed by four lower-case hex digits, for a control character. */
  function UnicodeEscape(c: char): string
    requires (c as int) < 0x20
  {
    "\\u00" + [HexDigitOf(c as int / 16), HexDigitOf(c as int % 16)]
  }

  /** The characters `JSON.stringify` writes for one character of a string. */
  function EscapeChar(c: char): string {
    if c == '"' then "\\\""
    else if c == '\\' then "\\\\"
    else if c == '\U{0008}' then "\\b"
    else if c == '\U{000C}' then "\\f"
    else if c == '\n' then "\\n"
    else if c == '\r' then "\\r"
    else if c == '\t' then "\\t"
    else if (c as int) < 0x20 then UnicodeEscape(c)
    else [c]
  }

  function Escape(s: string): string
    decreases |s|
  {
    if |s| == 0 then "" else EscapeChar(s[0]) + Escape(s[1..])
  }

  /** `JSON.stringify(payload)`, keys in the order written. */
  function PayloadJson(p: Payload): string {
    "{\"uid\":\"" + Escape(p.uid) + "\",\"sid\":\"" + Escape(p.sid) + "\",\"ts\":" + IntToString(p.ts)
    + ",\"exp\":" + IntToString(p.exp) + "}"
  }

  predicate Latin1(s: string) {
    forall k :: 0 <= k < |s| ==> (s[k] as int) < 256
  }

  /** Escaping keeps text within U+00FF. */
  lemma {:induction false} EscapeLatin1(s: string)
    requires Latin1(s)
    ensures Latin1(Escape(s))
    decreases |s|
  {
    if |s| > 0 {
      EscapeLatin1(s[1..]);
      assert Latin1(EscapeChar(s[0]));
      LatinConcat(EscapeChar(s[0]), Escape(s[1..]));
    }
  }

  lemma LatinConcat(a: string, b: string)
    requires Latin1(a) && Latin1(b)
    ensures Latin1(a + b)
  {
  }

  lemma DigitsLatin1(i: int)
    ensures Latin1(IntToString(i))
  {
    var s := if i < 0 then NatToString(-i) else NatToString(i);
    assert AllDigits(s);
  }

  /** The payload's JSON is within U+00FF when the ids are, so `btoa` accepts it. */
  lemma PayloadJsonLatin1(p: Payload)
    requires Latin1(p.uid) && Latin1(p.sid)
    ensures Latin1(PayloadJson(p))
  {
    EscapeLatin1(p.uid);
    EscapeLatin1(p.sid);
    DigitsLatin1(p.ts);
    DigitsLatin1(p.exp);
    var parts := ["{\"uid\":\"", Escape(p.uid), "\",\"sid\":\"", Escape(p.sid), "\",\"ts\":", IntToString(p.ts),
                  ",\"exp\":", IntToString(p.exp), "}"];
    var acc := parts[0];
    LatinConcat(acc, parts[1]); acc := acc + parts[1];
    LatinConcat(acc, parts[2]); acc := acc + parts[2];
    LatinConcat(acc, parts[3]); acc := acc + parts[3];
    LatinConcat(acc, parts[4]); acc := acc + parts[4];
    LatinConcat(acc, parts[5]); acc := acc + parts[5];
    LatinConcat(acc, parts[6]); acc := acc + parts[6];
    LatinConcat(acc, parts[7]); acc := acc + parts[7];
    LatinConcat(acc, parts[8]); acc := acc + parts[8];
    assert acc == PayloadJson(p);
  }

  /** `b.toString(16).padStart(2, '0')` for each byte, joined. */
  function HexOf(bytes: seq<Byte>): (hex: string)
    ensures |hex| == 2 * |bytes|
    ensures forall k :: 0 <= k < |hex| ==> '0' <= hex[k] <= '9' || 'a' <= hex[k] <= 'f'
    decreases |bytes|
  {
    if |bytes| == 0 then ""
    else [HexDigitOf(bytes[0] / 16), HexDigitOf(bytes[0] % 16)] + HexOf(bytes[1..])
  }

  datatype Reply =
    | QrCode(id: string, userId: string, qrData: string, signature: string, createdAt: int, expiresAt: int,
             isActive: bool, usageCount: nat)
    | Failure(status: int, code: string, message: string)

  function PayloadOf(user: AuthUser, now: int): Payload {
    Payload(user.userId, user.sessionId, now, now + ExpiresInMs)
  }

  /** `POST`: no user is 401; `btoa` throwing on a character above U+00FF is the 500 of the catch. */
  function Generate(user: Option<AuthUser>, now: int, id: string, signatureBytes: seq<Byte>): (r: Reply)
    ensures user.None? ==> r == Failure(401, "NO_SESSION", "Authentication required")
    ensures r.QrCode? ==> && user.Some? && r.userId == user.value.userId
                          && r.expiresAt - r.createdAt == ExpiresInMs && r.createdAt == now
                          && r.isActive && r.usageCount == 0 && r.id == id && |r.signature| == 2 * |signatureBytes|
                          && Btoa(PayloadJson(PayloadOf(user.value, now))) == Some(r.qrData)
    ensures user.Some? && Latin1(user.value.userId) && Latin1(user.value.sessionId) ==> r.QrCode?
  {
    if user.None? then Failure(401, "NO_SESSION", "Authentication required")
    else
      var payload := PayloadOf(user.value, now);
      var json := PayloadJson(payload);
      if Latin1(user.value.userId) && Latin1(user.value.sessionId) then PayloadJsonLatin1(payload); Base64Json(user.value, now, id, signatureBytes, json)
      else Base64Json(user.value, now, id, signatureBytes, json)
  }

  function Base64Json(user: AuthUser, now: int, id: string, signatureBytes: seq<Byte>, json: string): (r: Reply)
    ensures Latin1(json) ==> r.QrCode?
    ensures r.QrCode? ==> Btoa(json) == Some(r.qrData) && r.userId == user.userId && r.createdAt == now
                          && r.expiresAt == now + ExpiresInMs && r.isActive && r.usageCount == 0 && r.id == id
                          && |r.signature| == 2 * |signatureBytes|
  {
    match Btoa(json)
    case None => Failure(500, "INTERNAL_ERROR", "Failed to generate QR code")
    case Some(qrData) =>
      QrCode(id, user.userId, qrData, HexOf(signatureBytes), now, now + ExpiresInMs, true, 0)
  }

  /** Decoding the QR data gives back exactly the payload's JSON, which names the user and session and expires five minutes after it was made. */
  lemma QrDataDecodes(user: AuthUser, now: int, id: string, signatureBytes: seq<Byte>)
    requires Generate(Some(user), now, id, signatureBytes).QrCode?
    ensures var r := Generate(Some(user), now, id, signatureBytes);
      Atob(r.qrData) == Some(PayloadJson(Payload(user.userId, user.sessionId, now, now + 300000)))
  {
    var r := Generate(Some(user), now, id, signatureBytes);
    AtobBtoa(PayloadJson(PayloadOf(user, now)));
  }
}
