/**
 JSON text as `json.dumps` writes it with compact separators and ASCII escapes, and a
 reader for that text (the grammar of RFC 8259, sections 2 to 7, without white space).
 */
module JsonText {
  import opened Prelude
  import opened Json
  import opened Numerals

  // ------------------------------------------------------------ writing

  function HexDigit(d: nat): char
    requires d < 16
  {
    if d < 10 then '0' + d as char else 'a' + (d - 10) as char
  }

  function UnicodeEscape(unit: nat): (text: string)
    requires unit < 0x10000
    ensures |text| == 6
  {
    ['\\', 'u', HexDigit(unit / 16 / 16 / 16), HexDigit(unit / 16 / 16 % 16), HexDigit(unit / 16 % 16),
     HexDigit(unit % 16)]
  }

  /** One character inside a string; beyond the basic plane, a surrogate pair. */
  function EscapeChar(c: char): (text: string)
    ensures text != "" && text[0] != '"'
  {
    if c == '"' then ['\\', '"']
    else if c == '\\' then ['\\', '\\']
    else if c == '\n' then ['\\', 'n']
    else if c == '\r' then ['\\', 'r']
    else if c == '\t' then ['\\', 't']
    else if c as int == 12 then ['\\', 'f']
    else if c as int == 8 then ['\\', 'b']
    else if ' ' <= c <= '~' then [c]
    else if c as int < 0x10000 then UnicodeEscape(c as int)
    else
      var n := c as int - 0x10000;
      UnicodeEscape(0xD800 + n / 1024) + UnicodeEscape(0xDC00 + n % 1024)
  }

  function Escape(s: string): string {
    if s == "" then "" else EscapeChar(s[0]) + Escape(s[1..])
  }

  function Print(v: Json): string
    decreases v, 1
  {
    match v
    case Null => "null"
    case Bool(b) => if b then "true" else "false"
    case Int(n) => if n < 0 then "-" + DecimalText(-n) else DecimalText(n)
    case Str(s) => "\"" + Escape(s) + "\""
    case Arr(items) => "[" + PrintItems(items) + "]"
    case Obj(fields) => "{" + PrintFields(fields) + "}"
  }

  function PrintItems(items: seq<Json>): string
    decreases items, 0
  {
    if items == [] then ""
    else if |items| == 1 then Print(items[0])
    else Print(items[0]) + "," + PrintItems(items[1..])
  }

  function PrintField(field: Field): string
    decreases field, 2
  {
    "\"" + Escape(field.key) + "\":" + Print(field.value)
  }

  function PrintFields(fields: seq<Field>): string
    decreases fields, 0
  {
    if fields == [] then ""
    else if |fields| == 1 then PrintField(fields[0])
    else PrintField(fields[0]) + "," + PrintFields(fields[1..])
  }

  // ------------------------------------------------------------ reading

  function HexValue(c: char): Option<nat> {
    if '0' <= c <= '9' then Some(c as int - '0' as int)
    else if 'a' <= c <= 'f' then Some(c as int - 'a' as int + 10)
    else None
  }

  /** The code unit of a `\uXXXX` escape at the start of a text. */
  function ReadUnit(text: string): (unit: Option<nat>)
    ensures unit.Some? ==> |text| >= 6 && unit.value < 0x10000
  {
    if |text| < 6 || text[0] != '\\' || text[1] != 'u' then None
    else
      var a, b, c, d := HexValue(text[2]), HexValue(text[3]), HexValue(text[4]), HexValue(text[5]);
      if a.None? || b.None? || c.None? || d.None? then None
      else Some(a.value * 4096 + b.value * 256 + c.value * 16 + d.value)
  }

  /** One character of a string, and the text after it. */
  function ReadChar(text: string): (r: Option<(char, string)>)
    ensures r.Some? ==> |r.value.1| < |text|
  {
    if text == "" || text[0] == '"' || text[0] < ' ' then None
    else if text[0] != '\\' then Some((text[0], text[1..]))
    else if |text| == 1 then None
    else
      match text[1]
      case '"' => Some(('"', text[2..]))
      case '\\' => Some(('\\', text[2..]))
      case '/' => Some(('/', text[2..]))
      case 'n' => Some(('\n', text[2..]))
      case 'r' => Some(('\r', text[2..]))
      case 't' => Some(('\t', text[2..]))
      case 'f' => Some((12 as char, text[2..]))
      case 'b' => Some((8 as char, text[2..]))
      case _ =>
        match ReadUnit(text)
        case None => None
        case Some(u) =>
          if 0xD800 <= u < 0xDC00 then
            match ReadUnit(text[6..])
            case None => None
            case Some(w) =>
              if 0xDC00 <= w < 0xE000
              then Some(((0x10000 + (u - 0xD800) * 1024 + (w - 0xDC00)) as char, text[12..]))
              else None
          else if 0xDC00 <= u < 0xE000 then None
          else Some((u as char, text[6..]))
  }

  /** The characters up to the closing quote, and the text after the quote. */
  function ReadChars(text: string): (r: Option<(string, string)>)
    ensures r.Some? ==> |r.value.1| < |text|
    decreases |text|
  {
    if text != "" && text[0] == '"' then Some(("", text[1..]))
    else
      match ReadChar(text)
      case None => None
      case Some((c, rest)) =>
        match ReadChars(rest)
        case None => None
        case Some((s, rest')) => Some(([c] + s, rest'))
  }

  function ReadNumber(text: string): (r: Option<(int, string)>)
    ensures r.Some? ==> |r.value.1| < |text|
  {
    var (digits, rest) := SplitDigits(text);
    if digits == "" then None else Some((DecimalValue(digits), rest))
  }

  function ReadInt(text: string): (r: Option<(int, string)>)
    ensures r.Some? ==> |r.value.1| < |text|
  {
    if StartsWith(text, "-") then
      match ReadNumber(text[1..])
      case None => None
      case Some((n, rest)) => Some((-n, rest))
    else ReadNumber(text)
  }

  predicate StartsWith(text: string, prefix: string) {
    |prefix| <= |text| && text[..|prefix|] == prefix
  }

  function ReadValue(text: string): (r: Option<(Json, string)>)
    ensures r.Some? ==> |r.value.1| < |text|
    decreases |text|, 0
  {
    if text == "" then None
    else if text[0] == '"' then
      match ReadChars(text[1..])
      case None => None
      case Some((s, rest)) => Some((Str(s), rest))
    else if text[0] == '[' then
      if StartsWith(text[1..], "]") then Some((Arr([]), text[2..]))
      else
        match ReadItems(text[1..])
        case None => None
        case Some((items, rest)) => Some((Arr(items), rest))
    else if text[0] == '{' then
      if StartsWith(text[1..], "}") then Some((Obj([]), text[2..]))
      else
        match ReadFields(text[1..])
        case None => None
        case Some((fields, rest)) => Some((Obj(fields), rest))
    else if StartsWith(text, "null") then Some((Null, text[4..]))
    else if StartsWith(text, "true") then Some((Bool(true), text[4..]))
    else if StartsWith(text, "false") then Some((Bool(false), text[5..]))
    else
      match ReadInt(text)
      case None => None
      case Some((n, rest)) => Some((Int(n), rest))
  }

  /** One or more values separated by commas, and the closing bracket. */
  function ReadItems(text: string): (r: Option<(seq<Json>, string)>)
    ensures r.Some? ==> |r.value.1| < |text|
    decreases |text|, 1
  {
    match ReadValue(text)
    case None => None
    case Some((v, rest)) =>
      if StartsWith(rest, "]") then Some(([v], rest[1..]))
      else if StartsWith(rest, ",") then
        match ReadItems(rest[1..])
        case None => None
        case Some((items, rest')) => Some(([v] + items, rest'))
      else None
  }

  function ReadField(text: string): (r: Option<(Field, string)>)
    ensures r.Some? ==> |r.value.1| < |text|
    decreases |text|, 1
  {
    if !StartsWith(text, "\"") then None
    else
      match ReadChars(text[1..])
      case None => None
      case Some((key, rest)) =>
        if !StartsWith(rest, ":") then None
        else
          match ReadValue(rest[1..])
          case None => None
          case Some((v, rest')) => Some((Field(key, v), rest'))
  }

  /** One or more fields separated by commas, and the closing brace. */
  function ReadFields(text: string): (r: Option<(seq<Field>, string)>)
    ensures r.Some? ==> |r.value.1| < |text|
    decreases |text|, 2
  {
    match ReadField(text)
    case None => None
    case Some((f, rest)) =>
      if StartsWith(rest, "}") then Some(([f], rest[1..]))
      else if StartsWith(rest, ",") then
        match ReadFields(rest[1..])
        case None => None
        case Some((fields, rest')) => Some(([f] + fields, rest'))
      else None
  }

  // ------------------------------------------------------------ strings read back

  lemma HexReadsBack(d: nat)
    requires d < 16
    ensures HexValue(HexDigit(d)) == Some(d)
  {
  }

  lemma UnitReadsBack(unit: nat, rest: string)
    requires unit < 0x10000
    ensures ReadUnit(UnicodeEscape(unit) + rest) == Some(unit)
    ensures (UnicodeEscape(unit) + rest)[6..] == rest
  {
    var low, mid, high := unit / 16, unit / 16 / 16, unit / 16 / 16 / 16;
    HexReadsBack(high);
    HexReadsBack(mid % 16);
    HexReadsBack(low % 16);
    HexReadsBack(unit % 16);
    assert unit == high * 4096 + mid % 16 * 256 + low % 16 * 16 + unit % 16;
  }

  lemma PairReadsBack(u: nat, w: nat, rest: string)
    requires 0xD800 <= u < 0xDC00 <= w < 0xE000
    ensures ReadChar(UnicodeEscape(u) + UnicodeEscape(w) + rest)
      == Some(((0x10000 + (u - 0xD800) * 1024 + (w - 0xDC00)) as char, rest))
  {
    var text, tail := UnicodeEscape(u) + UnicodeEscape(w) + rest, UnicodeEscape(w) + rest;
    assert text == UnicodeEscape(u) + tail;
    UnitReadsBack(u, tail);
    UnitReadsBack(w, rest);
    assert text[12..] == text[6..][6..];
    assert text[0] == '\\' && text[1] == 'u';
  }

  lemma CharReadsBack(c: char, rest: string)
    ensures ReadChar(EscapeChar(c) + rest) == Some((c, rest))
  {
    hide UnicodeEscape, ReadUnit;
    var text := EscapeChar(c) + rest;
    if c as int >= 0x10000 {
      var n := c as int - 0x10000;
      PairReadsBack(0xD800 + n / 1024, 0xDC00 + n % 1024, rest);
    } else if |EscapeChar(c)| == 6 {
      UnicodeReadsBack(c, rest);
    } else if |EscapeChar(c)| == 1 {
      assert text == [c] + rest && text[1..] == rest;
    } else {
      ShortReadsBack(c, rest);
    }
  }

  lemma UnicodeReadsBack(c: char, rest: string)
    requires c as int < 0x10000
    ensures ReadChar(UnicodeEscape(c as int) + rest) == Some((c, rest))
  {
    UnitReadsBack(c as int, rest);
    var text := UnicodeEscape(c as int) + rest;
    assert text[0] == '\\' && text[1] == 'u';
  }

  lemma ShortReadsBack(c: char, rest: string)
    requires |EscapeChar(c)| == 2
    ensures ReadChar(EscapeChar(c) + rest) == Some((c, rest))
  {
    assert (EscapeChar(c) + rest)[2..] == rest;
  }

  lemma {:induction false} CharsReadBack(s: string, rest: string)
    ensures ReadChars(Escape(s) + "\"" + rest) == Some((s, rest))
  {
    hide ReadChar, EscapeChar;
    if s == "" {
      assert Escape(s) + "\"" + rest == "\"" + rest;
    } else {
      var tail := Escape(s[1..]) + "\"" + rest;
      assert Escape(s) + "\"" + rest == EscapeChar(s[0]) + tail;
      CharReadsBack(s[0], tail);
      CharsReadBack(s[1..], rest);
      assert [s[0]] + s[1..] == s;
    }
  }

  // ------------------------------------------------------------ values read back

  lemma NumberReadsBack(n: nat, rest: string)
    requires NoDigitFirst(rest)
    ensures ReadNumber(DecimalText(n) + rest) == Some((n, rest))
  {
    SplitOf(DecimalText(n), rest);
    ValueOfText(n);
  }

  /** The first character of a printed value tells what follows; it never closes a bracket. */
  lemma PrintStarts(v: Json)
    ensures Print(v) != "" && Print(v)[0] != ']' && Print(v)[0] != '}'
  {
  }

  lemma SignReads(text: string, n: int, rest: string)
    requires n < 0 && text == "-" + DecimalText(-n) + rest
    requires ReadNumber(DecimalText(-n) + rest) == Some((-n, rest))
    ensures ReadInt(text) == Some((n, rest))
  {
    assert text[..1] == "-" && text[1..] == DecimalText(-n) + rest;
  }

  lemma SignedReadsBack(n: int, rest: string)
    requires NoDigitFirst(rest)
    ensures ReadInt(Print(Int(n)) + rest) == Some((n, rest))
  {
    var text := Print(Int(n)) + rest;
    if n < 0 {
      NumberReadsBack(-n, rest);
      SignReads(text, n, rest);
    } else {
      NumberReadsBack(n, rest);
      assert text == DecimalText(n) + rest && Digit(text[0]);
      assert text[..1] != "-";
    }
  }

  lemma IntReadsBack(n: int, rest: string)
    requires NoDigitFirst(rest)
    ensures ReadValue(Print(Int(n)) + rest) == Some((Int(n), rest))
  {
    var text := Print(Int(n)) + rest;
    SignedReadsBack(n, rest);
    assert text[0] == '-' || Digit(text[0]);
  }

  lemma LiteralReadsBack(v: Json, rest: string)
    requires v.Null? || v.Bool?
    ensures ReadValue(Print(v) + rest) == Some((v, rest))
  {
    var text := Print(v) + rest;
    assert text[..|Print(v)|] == Print(v) && text[|Print(v)|..] == rest;
    assert text[0] == Print(v)[0];
  }

  lemma StrReadsBack(s: string, rest: string)
    ensures ReadValue(Print(Str(s)) + rest) == Some((Str(s), rest))
  {
    assert (Print(Str(s)) + rest)[1..] == Escape(s) + "\"" + rest;
    CharsReadBack(s, rest);
  }

  lemma ArrReadsBack(items: seq<Json>, rest: string)
    requires items != [] ==> ReadItems(PrintItems(items) + "]" + rest) == Some((items, rest))
    ensures ReadValue(Print(Arr(items)) + rest) == Some((Arr(items), rest))
  {
    var text, inner := Print(Arr(items)) + rest, PrintItems(items) + "]" + rest;
    assert text[0] == '[' && text[1..] == inner;
    if items == [] {
      assert inner == "]" + rest && text[2..] == rest;
    } else {
      PrintStarts(items[0]);
      assert inner[0] == Print(items[0])[0];
    }
  }

  lemma ObjReadsBack(fields: seq<Field>, rest: string)
    requires fields != [] ==> ReadFields(PrintFields(fields) + "}" + rest) == Some((fields, rest))
    ensures ReadValue(Print(Obj(fields)) + rest) == Some((Obj(fields), rest))
  {
    var text, inner := Print(Obj(fields)) + rest, PrintFields(fields) + "}" + rest;
    assert text[1..] == inner;
    if fields == [] {
      assert text[2..] == rest;
    } else {
      assert inner[0] == '"';
    }
  }

  /** Every printed value reads back, whatever text follows that does not extend a number. */
  lemma {:induction false} ValueReadsBack(v: Json, rest: string)
    requires NoDigitFirst(rest)
    ensures ReadValue(Print(v) + rest) == Some((v, rest))
    decreases v, 1
  {
    match v
    case Null => LiteralReadsBack(v, rest);
    case Bool(_) => LiteralReadsBack(v, rest);
    case Int(n) => IntReadsBack(n, rest);
    case Str(s) => StrReadsBack(s, rest);
    case Arr(items) =>
      if items != [] { ItemsReadBack(items, rest); }
      ArrReadsBack(items, rest);
    case Obj(fields) =>
      if fields != [] { FieldsReadBack(fields, rest); }
      ObjReadsBack(fields, rest);
  }

  lemma {:induction false} ItemsReadBack(items: seq<Json>, rest: string)
    requires items != []
    ensures ReadItems(PrintItems(items) + "]" + rest) == Some((items, rest))
    decreases items, 0
  {
    var text := PrintItems(items) + "]" + rest;
    if |items| == 1 {
      assert text == Print(items[0]) + ("]" + rest);
      ValueReadsBack(items[0], "]" + rest);
      assert ("]" + rest)[1..] == rest;
      assert [items[0]] == items;
    } else {
      var tail := PrintItems(items[1..]) + "]" + rest;
      assert text == Print(items[0]) + ("," + tail);
      ValueReadsBack(items[0], "," + tail);
      assert ("," + tail)[1..] == tail;
      ItemsReadBack(items[1..], rest);
      assert [items[0]] + items[1..] == items;
    }
  }

  lemma FieldFromParts(text: string, field: Field, after: string, rest: string)
    requires text != "" && text[0] == '"'
    requires ReadChars(text[1..]) == Some((field.key, ":" + after)) && ReadValue(after) == Some((field.value, rest))
    ensures ReadField(text) == Some((field, rest))
  {
    assert (":" + after)[1..] == after;
  }

  lemma {:induction false} FieldReadsBack(field: Field, rest: string)
    requires NoDigitFirst(rest)
    ensures ReadField(PrintField(field) + rest) == Some((field, rest))
    decreases field, 2
  {
    var text, after := PrintField(field) + rest, Print(field.value) + rest;
    assert text[1..] == Escape(field.key) + "\"" + (":" + after);
    CharsReadBack(field.key, ":" + after);
    ValueReadsBack(field.value, rest);
    FieldFromParts(text, field, after, rest);
  }

  lemma FieldsEnd(text: string, f: Field, rest: string)
    requires ReadField(text) == Some((f, "}" + rest))
    ensures ReadFields(text) == Some(([f], rest))
  {
    assert ("}" + rest)[1..] == rest;
  }

  lemma FieldsGoOn(text: string, f: Field, tail: string, fields: seq<Field>, rest: string)
    requires ReadField(text) == Some((f, "," + tail)) && ReadFields(tail) == Some((fields, rest))
    ensures ReadFields(text) == Some(([f] + fields, rest))
  {
    assert ("," + tail)[1..] == tail;
  }

  lemma {:induction false} FieldsReadBack(fields: seq<Field>, rest: string)
    requires fields != []
    ensures ReadFields(PrintFields(fields) + "}" + rest) == Some((fields, rest))
    decreases fields, 0
  {
    var text := PrintFields(fields) + "}" + rest;
    if |fields| == 1 {
      assert text == PrintField(fields[0]) + ("}" + rest);
      FieldReadsBack(fields[0], "}" + rest);
      FieldsEnd(text, fields[0], rest);
      assert [fields[0]] == fields;
    } else {
      var tail := PrintFields(fields[1..]) + "}" + rest;
      assert text == PrintField(fields[0]) + ("," + tail);
      FieldReadsBack(fields[0], "," + tail);
      FieldsReadBack(fields[1..], rest);
      FieldsGoOn(text, fields[0], tail, fields[1..], rest);
      assert [fields[0]] + fields[1..] == fields;
    }
  }

  /** The text determines the value. */
  lemma PrintIsInjective(a: Json, b: Json)
    requires Print(a) == Print(b)
    ensures a == b
  {
    ValueReadsBack(a, "");
    ValueReadsBack(b, "");
    assert Print(a) + "" == Print(a) && Print(b) + "" == Print(b);
  }
}
