/**
 How the adapter reads the payment hash out of LND's reply: as a text, or as bytes in base64
 (section 4 of RFC 4648), which it turns into hexadecimal.
 */
module LndHashes {
  import opened Prelude
  import opened Json
  import opened LndClient
  import opened LndWords

  type Byte = b: int | 0 <= b < 256

  const HEX := "0123456789abcdef"

  /** The character for six bits. */
  function Base64(n: nat): char
    requires n < 64
  {
    if n < 26 then 'A' + n as char
    else if n < 52 then 'a' + (n - 26) as char
    else if n < 62 then '0' + (n - 52) as char
    else if n == 62 then '+'
    else '/'
  }

  /** Two hexadecimal digits for every byte. */
  function HexOf(bytes: seq<Byte>): string {
    if bytes == [] then "" else [HEX[bytes[0] / 16], HEX[bytes[0] % 16]] + HexOf(bytes[1..])
  }

  // three bytes as four times six bits

  function First(a: Byte): (n: nat)
    ensures n < 64
  {
    a / 4
  }

  function Second(a: Byte, b: Byte): (n: nat)
    ensures n < 64
  {
    a % 4 * 16 + b / 16
  }

  function Third(b: Byte, c: Byte): (n: nat)
    ensures n < 64
  {
    b % 16 * 4 + c / 64
  }

  function Fourth(c: Byte): (n: nat)
    ensures n < 64
  {
    c % 64
  }

  /** Four characters for every three bytes, padded at the end. */
  function Base64Of(bytes: seq<Byte>): string {
    if bytes == [] then ""
    else if |bytes| == 1 then [Base64(First(bytes[0])), Base64(Second(bytes[0], 0)), '=', '=']
    else if |bytes| == 2 then
      [Base64(First(bytes[0])), Base64(Second(bytes[0], bytes[1])), Base64(Third(bytes[1], 0)), '=']
    else
      [Base64(First(bytes[0])), Base64(Second(bytes[0], bytes[1])), Base64(Third(bytes[1], bytes[2])),
       Base64(Fourth(bytes[2]))] + Base64Of(bytes[3..])
  }

  // ------------------------------------------------------------ base64

  lemma SextetOf(n: nat)
    requires n < 64
    ensures Sextet(Base64(n)) == Some(n) && Base64(n) != '='
  {
  }

  lemma HexByteOf(b: Byte)
    ensures HexByte(b) == [HEX[b / 16], HEX[b % 16]]
  {
  }

  /** The bytes are put together again from their parts. */
  lemma PartsMakeBytes(a: Byte, b: Byte, c: Byte)
    ensures First(a) * 4 + Second(a, b) / 16 == a
    ensures Second(a, b) % 16 * 16 + Third(b, c) / 4 == b
    ensures Third(b, c) % 4 * 64 + Fourth(c) == c
  {
  }

  /** What was encoded is read as its hexadecimal digits. */
  lemma {:induction false} Base64ReadsBack(bytes: seq<Byte>)
    ensures Base64Hex(Base64Of(bytes)) == Some(HexOf(bytes))
    decreases |bytes|
  {
    if |bytes| == 1 {
      OneByteReadsBack(bytes);
    } else if |bytes| == 2 {
      TwoBytesReadBack(bytes);
    } else if |bytes| > 2 {
      Base64ReadsBack(bytes[3..]);
      GroupReadsBack(bytes);
    }
  }

  lemma OneByteReadsBack(bytes: seq<Byte>)
    requires |bytes| == 1
    ensures Base64Hex(Base64Of(bytes)) == Some(HexOf(bytes))
  {
    hide Base64Hex, HexOf, HexByte, Base64, First, Second;
    PartsMakeBytes(bytes[0], 0, 0);
    OneByteDecodes(First(bytes[0]), Second(bytes[0], 0));
    HexOfCons(bytes);
    HexOfNothing();
    assert bytes[1..] == [] && HexOf(bytes) == HexByte(bytes[0]) + [] == HexByte(bytes[0]);
  }

  lemma OneByteDecodes(p: nat, q: nat)
    requires p < 64 && q < 64
    ensures Base64Hex([Base64(p), Base64(q), '=', '=']) == Some(HexByte(p * 4 + q / 16))
  {
    var text := [Base64(p), Base64(q), '=', '='];
    SextetOf(p);
    SextetOf(q);
    assert text[2..] == "==";
  }

  lemma TwoBytesReadBack(bytes: seq<Byte>)
    requires |bytes| == 2
    ensures Base64Hex(Base64Of(bytes)) == Some(HexOf(bytes))
  {
    hide Base64Hex, HexOf, HexByte, Base64, First, Second, Third;
    var a, b := bytes[0], bytes[1];
    PartsMakeBytes(a, b, 0);
    TwoBytesDecode(First(a), Second(a, b), Third(b, 0));
    HexOfCons(bytes);
    HexOfCons(bytes[1..]);
    HexOfNothing();
    assert bytes[1..][1..] == [] && HexOf(bytes[1..]) == HexByte(b) + [] == HexByte(b);
  }

  lemma TwoBytesDecode(p: nat, q: nat, r: nat)
    requires p < 64 && q < 64 && r < 64
    ensures Base64Hex([Base64(p), Base64(q), Base64(r), '='])
      == Some(HexByte(p * 4 + q / 16) + HexByte(q % 16 * 16 + r / 4))
  {
    hide Sextet, HexByte, Base64;
    var text := [Base64(p), Base64(q), Base64(r), '='];
    SextetOf(p);
    SextetOf(q);
    SextetOf(r);
    assert text[2..][0] == text[2] != "=="[0];
    assert text[3..] == "=";
  }

  lemma GroupReadsBack(bytes: seq<Byte>)
    requires |bytes| > 2 && Base64Hex(Base64Of(bytes[3..])) == Some(HexOf(bytes[3..]))
    ensures Base64Hex(Base64Of(bytes)) == Some(HexOf(bytes))
  {
    hide Base64Hex, HexOf, HexByte, Base64, First, Second, Third, Fourth;
    var a, b, c := bytes[0], bytes[1], bytes[2];
    PartsMakeBytes(a, b, c);
    GroupDecodes(First(a), Second(a, b), Third(b, c), Fourth(c), Base64Of(bytes[3..]), HexOf(bytes[3..]));
    HexOfGroup(bytes);
  }

  lemma GroupDecodes(p: nat, q: nat, r: nat, t: nat, rest: string, hex: string)
    requires p < 64 && q < 64 && r < 64 && t < 64 && Base64Hex(rest) == Some(hex)
    ensures Base64Hex([Base64(p), Base64(q), Base64(r), Base64(t)] + rest)
      == Some(HexByte(p * 4 + q / 16) + HexByte(q % 16 * 16 + r / 4) + HexByte(r % 4 * 64 + t) + hex)
  {
    hide Sextet, HexByte, Base64;
    var text := [Base64(p), Base64(q), Base64(r), Base64(t)] + rest;
    SextetOf(p);
    SextetOf(q);
    SextetOf(r);
    SextetOf(t);
    assert text[2..][0] == text[2] != "=="[0];
    assert text[3..][0] == text[3] != "="[0];
    assert text[4..] == rest;
  }

  lemma HexOfNothing()
    ensures HexOf([]) == ""
  {
  }

  lemma HexOfCons(bytes: seq<Byte>)
    requires bytes != []
    ensures HexOf(bytes) == HexByte(bytes[0]) + HexOf(bytes[1..])
  {
    HexByteOf(bytes[0]);
  }

  lemma HexOfGroup(bytes: seq<Byte>)
    requires |bytes| > 2
    ensures HexOf(bytes) == HexByte(bytes[0]) + HexByte(bytes[1]) + HexByte(bytes[2]) + HexOf(bytes[3..])
  {
    hide HexByte, HexOf;
    HexOfCons(bytes);
    HexOfCons(bytes[1..]);
    HexOfCons(bytes[2..]);
    assert bytes[1..][1..] == bytes[2..] && bytes[2..][1..] == bytes[3..];
  }

  // ------------------------------------------------------------ the fields of a reply

  /** Python takes the value for false. */
  predicate Empty(v: Json) {
    v in {Null, Bool(false), Int(0), Str(""), Arr([]), Obj([])}
  }

  lemma EmptyIsNotTruthy(v: Json)
    ensures IsTruthy(v) <==> !Empty(v)
  {
  }

  /**
   The reply names this hash: as the text under `payment_hash`, or, if there is nothing there, as the
   bytes under `payment_hash_bytes`.
   */
  ghost predicate Names(fields: seq<Field>, hash: string) {
    var text, bytes := Get(fields, "payment_hash"), Get(fields, "payment_hash_bytes");
    || (text.Str? && text.s != "" && hash == text.s)
    || (Empty(text) && exists b: seq<Byte> :: b != [] && bytes == Str(Base64Of(b)) && hash == HexOf(b))
  }

  ghost predicate NamesNone(fields: seq<Field>) {
    Empty(Get(fields, "payment_hash")) && Empty(Get(fields, "payment_hash_bytes"))
  }

  /** The hash read is the one named, with its letters in lower case; and none is read if none is named. */
  lemma HashIsRead(fields: seq<Field>, hash: string)
    ensures Names(fields, hash) ==> hash != "" && NamedHash(Obj(fields)) == Lower(hash)
    ensures NamesNone(fields) ==> NamedHash(Obj(fields)) == ""
  {
    hide Lower;
    EmptyIsNotTruthy(Get(fields, "payment_hash"));
    EmptyIsNotTruthy(Get(fields, "payment_hash_bytes"));
    if Names(fields, hash) && Empty(Get(fields, "payment_hash")) {
      BytesAreRead(fields, hash);
    }
    LowerEmpty();
  }

  lemma LowerEmpty()
    ensures Lower("") == ""
  {
  }

  lemma BytesAreRead(fields: seq<Field>, hash: string)
    requires Names(fields, hash) && Empty(Get(fields, "payment_hash"))
    ensures hash != "" && NamedHash(Obj(fields)) == Lower(hash)
  {
    hide Lower, Base64Of, HexOf;
    var b: seq<Byte> :| b != [] && Get(fields, "payment_hash_bytes") == Str(Base64Of(b)) && hash == HexOf(b);
    Base64ReadsBack(b);
    Lengths(b);
    EmptyIsNotTruthy(Get(fields, "payment_hash"));
  }

  lemma {:induction false} Lengths(bytes: seq<Byte>)
    ensures |HexOf(bytes)| == 2 * |bytes| && (bytes != [] ==> |Base64Of(bytes)| >= 4)
    decreases |bytes|
  {
    if bytes != [] { Lengths(bytes[1..]); }
  }

  /** Texts are equal in lower case if and only if they are the same up to case, character by character. */
  lemma LowerAgrees(a: string, b: string)
    ensures Lower(a) == Lower(b) <==> SameUpToCase(a, b)
  {
    if SameUpToCase(a, b) {
      assert forall i :: 0 <= i < |a| ==> Lower(a)[i] == Lower(b)[i];
    }
    if Lower(a) == Lower(b) {
      assert |a| == |Lower(a)| == |b|;
      forall i | 0 <= i < |a|
        ensures SameLetter(a[i], b[i])
      {
        assert Lower(a)[i] == Lower(b)[i];
      }
    }
  }

  // ------------------------------------------------------------ a hash in hexadecimal under the bytes

  predicate Hexadecimal(text: string) {
    forall i :: 0 <= i < |text| ==> '0' <= text[i] <= '9' || 'a' <= text[i] <= 'f' || 'A' <= text[i] <= 'F'
  }

  /** Hexadecimal digits are base64 characters too, and are read as such. */
  lemma {:induction false} HexIsReadAsBase64(text: string)
    requires Hexadecimal(text) && |text| % 4 == 0
    ensures Base64Hex(text).Some? && |Base64Hex(text).value| == |text| / 4 * 6
    decreases |text|
  {
    if text != "" {
      HexIsReadAsBase64(text[4..]);
      assert text[2..] != "==" by { assert text[2..][0] == text[2]; }
      assert text[3..] != "=" by { assert text[3..][0] == text[3]; }
    }
  }
}
