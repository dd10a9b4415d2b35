/**
 * The message record every driver sends and receives (BusMessage), and the
 * text formatting the drivers apply to its fields when they build names.
 */
module Envelope {
  import opened Wrappers

  /** A message payload: a field map. JSON encoding is treated as a perfect round trip. */
  type Data = map<string, string>

  /** A payload as it arrives on the wire: decodable to a field map, or not. */
  datatype Payload = Json(data: Data) | Garbled

  /** The identifier a backend or an application attaches to a message. */
  datatype MsgId = NoId | Num(n: int) | Text(s: string)

  /** BusMessage(data, msg_id=None, rcpt=None, sender=None). */
  datatype BusMessage = BusMessage(data: Data, msgId: MsgId, rcpt: Option<string>, sender: Option<string>)

  /** Python's str() of an optional string, as an f-string renders it: None becomes "None". */
  function Str(o: Option<string>): (s: string)
    ensures o.Some? ==> s == o.value
    ensures o.None? ==> s == "None"
  {
    match o
    case Some(v) => v
    case None => "None"
  }

  /** The decimal digits of a natural number. */
  function Digits(n: nat): (s: string)
    decreases n
  {
    if n < 10 then [DigitChar(n)] else Digits(n / 10) + [DigitChar(n % 10)]
  }

  function DigitChar(d: nat): (c: char)
    requires d < 10
    ensures '0' <= c <= '9'
  {
    (48 + d) as char
  }

  /** Python's str() of an int: optional minus sign, then decimal digits. */
  function IntStr(i: int): (s: string)
    ensures |s| >= 1
    ensures i >= 0 ==> forall k :: 0 <= k < |s| ==> '0' <= s[k] <= '9'
    ensures i < 0 ==> s[0] == '-' && forall k :: 1 <= k < |s| ==> '0' <= s[k] <= '9'
  {
    DigitsAreDigits(if i < 0 then -i else i);
    if i < 0 then "-" + Digits(-i) else Digits(i)
  }

  lemma {:induction false} DigitsAreDigits(n: nat)
    ensures |Digits(n)| >= 1
    ensures forall k :: 0 <= k < |Digits(n)| ==> '0' <= Digits(n)[k] <= '9'
    decreases n
  {
    if n >= 10 {
      DigitsAreDigits(n / 10);
    }
  }
}
