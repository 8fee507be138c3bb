/**
 What the Lightning adapter's client makes of LND's replies: the dictionaries it hands to
 the routes. A reply without a body counts as an empty object.
 */
module LndClient {
  import opened Prelude
  import opened Json
  import opened Numerals
  import JsonText
  import PaymentLookup

  /** Python's truth test on a JSON value. */
  predicate IsTruthy(v: Json) {
    match v
    case Null => false
    case Bool(b) => b
    case Int(n) => n != 0
    case Str(s) => s != ""
    case Arr(items) => items != []
    case Obj(fields) => fields != []
  }

  /** `str(v)`, for lists and objects their JSON text. */
  function PyText(v: Json): string {
    match v
    case Null => "None"
    case Bool(b) => if b then "True" else "False"
    case Int(n) => if n < 0 then "-" + DecimalText(-n) else DecimalText(n)
    case Str(s) => s
    case _ => JsonText.Print(v)
  }

  /** `str(v or "")` */
  function TextOr(v: Json): string {
    if IsTruthy(v) then PyText(v) else ""
  }

  // ------------------------------------------------------------ `_hash_to_hex`

  function Sextet(c: char): Option<nat> {
    if 'A' <= c <= 'Z' then Some(c as int - 'A' as int)
    else if 'a' <= c <= 'z' then Some(c as int - 'a' as int + 26)
    else if '0' <= c <= '9' then Some(c as int - '0' as int + 52)
    else if c == '+' then Some(62)
    else if c == '/' then Some(63)
    else None
  }

  function HexByte(n: nat): string {
    [JsonText.HexDigit(n / 16 % 16), JsonText.HexDigit(n % 16)]
  }

  /** The bytes of base64 text (section 4 of RFC 4648), in hexadecimal. */
  function Base64Hex(text: string): Option<string> {
    if text == "" then Some("")
    else if |text| < 4 then None
    else
      var a, b, c, d := Sextet(text[0]), Sextet(text[1]), Sextet(text[2]), Sextet(text[3]);
      if a.None? || b.None? then None
      else
        var first := HexByte(a.value * 4 + b.value / 16);
        if text[2..] == "==" then Some(first)
        else if c.None? then None
        else
          var second := HexByte(b.value % 16 * 16 + c.value / 4);
          if text[3..] == "=" then Some(first + second)
          else if d.None? then None
          else
            match Base64Hex(text[4..])
            case None => None
            case Some(rest) => Some(first + second + HexByte(c.value % 4 * 64 + d.value) + rest)
  }

  function HashToHex(v: Json): Option<string> {
    if !IsTruthy(v) then None
    else
      match Base64Hex(PyText(v))
      case Some(hex) => Some(hex)
      case None => if |PyText(v)| == 64 then Some(Lower(PyText(v))) else None
  }

  // ------------------------------------------------------------ `pay_invoice`

  function TypeName(v: Json): string {
    match v
    case Null => "NoneType"
    case Bool(_) => "bool"
    case Int(_) => "int"
    case Str(_) => "str"
    case Arr(_) => "list"
    case Obj(_) => "dict"
  }

  /** The hash LND puts in its reply, by name or as bytes. */
  function ReplyHash(fields: seq<Field>): Json {
    var hash := Get(fields, "payment_hash");
    if IsTruthy(hash) then hash
    else
      match HashToHex(Get(fields, "payment_hash_bytes"))
      case Some(hex) => Str(hex)
      case None => Null
  }

  /** The client's own summary of a reply; the status in it is the client's, not LND's. */
  function PayInvoice(reply: Json, feeLimit: int): Result<Json, string> {
    if !reply.Obj? then Err("'" + TypeName(reply) + "' object has no attribute 'get'")
    else
      var error := Get(reply.fields, "payment_error");
      Ok(Obj([Field("payment_hash", ReplyHash(reply.fields)),
              Field("payment_error", error),
              Field("status", Str(if IsTruthy(error) then "failed" else "submitted")),
              Field("fee_limit_sats", Int(feeLimit))]))
  }

  // ------------------------------------------------------------ `lookup_payment`

  function FoundView(found: PaymentLookup.Found): Json {
    match found
    case Listed(hash, status, value, fee, created) =>
      Obj([Field("payment_hash", Str(hash)), Field("status", status), Field("value_sats", Int(value)),
           Field("fee_sats", Int(fee)), Field("creation_time_ns", created)])
    case NotListed(hash) => Obj([Field("payment_hash", Str(hash)), Field("status", Str("unknown"))])
  }

  // ------------------------------------------------------------ LND's own words

  /** LND names the error that made it refuse the payment. */
  predicate Refuses(reply: Json) {
    reply.Obj? && IsTruthy(Get(reply.fields, "payment_error"))
  }

  /** The hash LND's reply is about; empty if it names none. */
  function NamedHash(reply: Json): string {
    if reply.Obj? then Lower(TextOr(ReplyHash(reply.fields))) else ""
  }
}
