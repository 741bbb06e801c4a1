/**
 * The text a ticket's QR code carries: `JSON.stringify({ ticketId, eventId, userId })`
 * (application/usecases/event/HandleStripeWebhookUseCase.ts). Keys appear in
 * that order; string values are quoted with JSON's escapes. `ReadString` and
 * `DecodeQr` read the text back the way `JSON.parse` does.
 */
module QrPayloads {
  import opened Wrappers
  import opened ObjectIds

  datatype QrPayload = QrPayload(ticketId: string, eventId: string, userId: string)

  const Backspace: char := '\U{0008}'
  const FormFeed: char := '\U{000C}'

  /** How `JSON.stringify` writes one character inside a string literal. */
  function EscapeChar(c: char): (r: string)
    ensures 1 <= |r|
    ensures r[0] != '"' && r[0] >= ' '
    ensures r[0] != '\\' ==> r == [c]
  {
    if c == '"' then "\\\""
    else if c == '\\' then "\\\\"
    else if c == Backspace then "\\b"
    else if c == '\t' then "\\t"
    else if c == '\n' then "\\n"
    else if c == FormFeed then "\\f"
    else if c == '\r' then "\\r"
    else if c < ' ' then "\\u00" + [DigitChar(c as int / 16), DigitChar(c as int % 16)]
    else [c]
  }

  /** The body of a JSON string literal for `s` (without the quotes). */
  function Escape(s: string): string {
    if s == [] then [] else EscapeChar(s[0]) + Escape(s[1..])
  }

  /** The character an escape sequence (after its backslash) stands for, and how many characters it spans. */
  function Unescape(t: string): (r: Option<(char, nat)>)
    ensures r.Some? ==> 1 <= r.value.1 <= |t|
  {
    if t == [] then None
    else if t[0] == '"' then Some(('"', 1))
    else if t[0] == '\\' then Some(('\\', 1))
    else if t[0] == '/' then Some(('/', 1))
    else if t[0] == 'b' then Some((Backspace, 1))
    else if t[0] == 't' then Some(('\t', 1))
    else if t[0] == 'n' then Some(('\n', 1))
    else if t[0] == 'f' then Some((FormFeed, 1))
    else if t[0] == 'r' then Some(('\r', 1))
    else if t[0] == 'u' && |t| >= 5 && AllHex(t[1..5]) then
      var code := HexValue(t[1..5]);
      if code < 0xD800 then Some((code as char, 5))
      else if 0xE000 <= code < 0x1_0000 then Some((code as char, 5))
      else None
    else None
  }

  /**
   * Reads a JSON string literal whose opening quote is already consumed: the
   * decoded value and the text after the closing quote, or `None` when the
   * literal is malformed (a raw control character, a bad escape, no closing quote).
   */
  function ReadString(t: string): (r: Option<(string, string)>)
    ensures r.Some? ==> |r.value.1| < |t|
    decreases |t|
  {
    if t == [] then None
    else if t[0] == '"' then Some(([], t[1..]))
    else if t[0] < ' ' then None
    else if t[0] != '\\' then
      match ReadString(t[1..])
      case None => None
      case Some((s, rest)) => Some(([t[0]] + s, rest))
    else
      match Unescape(t[1..])
      case None => None
      case Some((c, used)) =>
        match ReadString(t[1 + used..])
        case None => None
        case Some((s, rest)) => Some(([c] + s, rest))
  }

  const TicketIdKey := "{\"ticketId\":\""
  const EventIdKey := ",\"eventId\":\""
  const UserIdKey := ",\"userId\":\""

  /** A member written by `JSON.stringify`: its opening `key` (ending in a quote), the escaped value, the closing quote. */
  function Member(key: string, v: string): string {
    key + Escape(v) + "\""
  }

  /** `JSON.stringify({ ticketId, eventId, userId })`. */
  function QrJson(p: QrPayload): string {
    Member(TicketIdKey, p.ticketId) + Member(EventIdKey, p.eventId) + Member(UserIdKey, p.userId) + "}"
  }

  /** A member `key` followed by a string literal: its value and the text after it. */
  function ReadMember(t: string, key: string): (r: Option<(string, string)>)
    ensures r.Some? ==> |r.value.1| < |t|
  {
    if |t| < |key| || t[..|key|] != key then None else ReadString(t[|key|..])
  }

  /** `JSON.parse` of a QR text of exactly that shape. */
  function DecodeQr(t: string): Option<QrPayload> {
    match ReadMember(t, TicketIdKey)
    case None => None
    case Some((ticketId, t1)) =>
      match ReadMember(t1, EventIdKey)
      case None => None
      case Some((eventId, t2)) =>
        match ReadMember(t2, UserIdKey)
        case None => None
        case Some((userId, t3)) =>
          if t3 == "}" then Some(QrPayload(ticketId, eventId, userId)) else None
  }

  /** The value of the four digits `00hl` of a `\u` escape. */
  lemma TwoLowDigits(hi: char, lo: char)
    requires IsHexDigit(hi) && IsHexDigit(lo)
    ensures AllHex(['0', '0', hi, lo])
    ensures HexValue(['0', '0', hi, lo]) == 16 * DigitValue(hi) + DigitValue(lo)
  {
    var x := ['0', '0', hi, lo];
    assert x[..3] == ['0', '0', hi];
    assert x[..3][..2] == ['0', '0'];
    assert x[..3][..2][..1] == ['0'];
    assert x[..3][..2][..1][..0] == [];
    assert HexValue(['0']) == 0;
    assert HexValue(['0', '0']) == 0;
    assert HexValue(['0', '0', hi]) == DigitValue(hi);
  }

  /** One escaped character is read back as that character. */
  lemma ReadEscapedChar(c: char, tail: string)
    ensures ReadString(EscapeChar(c) + tail) ==
      match ReadString(tail)
      case None => None
      case Some((s, rest)) => Some(([c] + s, rest))
  {
    var t := EscapeChar(c) + tail;
    if t[0] == '\\' {
      UnescapeEscaped(c, tail);
      assert t[1 + (|EscapeChar(c)| - 1)..] == tail;
    } else {
      assert t[1..] == tail;
    }
  }

  /** An escape sequence `JSON.stringify` writes is read back as the escaped character. */
  lemma UnescapeEscaped(c: char, tail: string)
    requires EscapeChar(c)[0] == '\\'
    ensures Unescape((EscapeChar(c) + tail)[1..]) == Some((c, |EscapeChar(c)| - 1))
  {
    if c < ' ' && c != Backspace && c != '\t' && c != '\n' && c != FormFeed && c != '\r' {
      var t := EscapeChar(c) + tail;
      var hi, lo := DigitChar(c as int / 16), DigitChar(c as int % 16);
      assert EscapeChar(c) == ['\\', 'u', '0', '0', hi, lo];
      assert t[2..6] == ['0', '0', hi, lo];
      assert t[1..][1..5] == t[2..6];
      TwoLowDigits(hi, lo);
    }
  }

  /** A string literal written by `JSON.stringify` reads back as the same string. */
  lemma {:induction false} ReadEscaped(s: string, rest: string)
    ensures ReadString(Escape(s) + "\"" + rest) == Some((s, rest))
  {
    if s == [] {
      assert Escape(s) + "\"" + rest == "\"" + rest;
    } else {
      assert Escape(s) + "\"" + rest == EscapeChar(s[0]) + (Escape(s[1..]) + "\"" + rest);
      ReadEscaped(s[1..], rest);
      ReadEscapedChar(s[0], Escape(s[1..]) + "\"" + rest);
      assert [s[0]] + s[1..] == s;
    }
  }

  /** A member written as `key` and a string literal reads back as its value. */
  lemma ReadWrittenMember(key: string, v: string, rest: string)
    ensures ReadMember(Member(key, v) + rest, key) == Some((v, rest))
  {
    var t := Member(key, v) + rest;
    assert t[..|key|] == key;
    assert t[|key|..] == Escape(v) + "\"" + rest;
    ReadEscaped(v, rest);
  }

  /** The QR text decodes to exactly the ticket id, event id and user id it was built from. */
  lemma DecodeQrJson(p: QrPayload)
    ensures DecodeQr(QrJson(p)) == Some(p)
  {
    var t2 := Member(UserIdKey, p.userId) + "}";
    var t1 := Member(EventIdKey, p.eventId) + t2;
    assert QrJson(p) == Member(TicketIdKey, p.ticketId) + t1;
    ReadWrittenMember(TicketIdKey, p.ticketId, t1);
    ReadWrittenMember(EventIdKey, p.eventId, t2);
    ReadWrittenMember(UserIdKey, p.userId, "}");
  }

  /** Different payloads give different QR texts. */
  lemma QrJsonInjective(p: QrPayload, q: QrPayload)
    requires p != q
    ensures QrJson(p) != QrJson(q)
  {
    DecodeQrJson(p);
    DecodeQrJson(q);
  }
}
