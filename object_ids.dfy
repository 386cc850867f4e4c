/**
 * Store identifiers: the twelve bytes of a BSON ObjectId, their 24-digit hexadecimal string form
 * (what `str(oid)` gives) and the parse of a client-supplied string (what `ObjectId(s)` does).
 */
module ObjectIds {
  import opened Wrappers
  import opened Text

  newtype byte = x: int | 0 <= x < 256

  type ObjectId = b: seq<byte> | |b| == 12 witness [0, 0, 0, 0, 0, 0, 0, 0, 0, 0, 0, 0]

  predicate IsHexChar(c: char)
  {
    '0' <= c <= '9' || 'a' <= c <= 'f' || 'A' <= c <= 'F'
  }

  predicate IsLowerHexChar(c: char)
  {
    '0' <= c <= '9' || 'a' <= c <= 'f'
  }

  predicate AllHex(s: string)
  {
    forall i :: 0 <= i < |s| ==> IsHexChar(s[i])
  }

  function HexDigit(n: int): (c: char)
    requires 0 <= n < 16
    ensures IsLowerHexChar(c)
  {
    if n < 10 then ('0' as int + n) as char else ('a' as int + n - 10) as char
  }

  function HexValue(c: char): (n: int)
    requires IsHexChar(c)
    ensures 0 <= n < 16
    ensures HexDigit(n) == LowerChar(c)
  {
    if '0' <= c <= '9' then c as int - '0' as int
    else if 'a' <= c <= 'f' then c as int - 'a' as int + 10
    else c as int - 'A' as int + 10
  }

  lemma HexValueOfDigit(n: int)
    requires 0 <= n < 16
    ensures HexValue(HexDigit(n)) == n
  {
  }

  /** Two lower-case hexadecimal digits per byte, most significant digit first. */
  function ToHex(bs: seq<byte>): (s: string)
    ensures |s| == 2 * |bs|
    ensures forall i :: 0 <= i < |s| ==> IsLowerHexChar(s[i])
  {
    if bs == [] then ""
    else [HexDigit(bs[0] as int / 16), HexDigit(bs[0] as int % 16)] + ToHex(bs[1..])
  }

  /** The bytes that consecutive pairs of hexadecimal digits (of either case) denote. */
  function FromHex(s: string): (bs: seq<byte>)
    requires |s| % 2 == 0 && AllHex(s)
    ensures |bs| == |s| / 2
  {
    if s == "" then []
    else [(HexValue(s[0]) * 16 + HexValue(s[1])) as byte] + FromHex(s[2..])
  }

  lemma {:induction false} FromHexOfToHex(bs: seq<byte>)
    ensures FromHex(ToHex(bs)) == bs
  {
    if bs != [] {
      var b := bs[0] as int;
      var s := ToHex(bs);
      assert s[2..] == ToHex(bs[1..]);
      HexValueOfDigit(b / 16);
      HexValueOfDigit(b % 16);
      FromHexOfToHex(bs[1..]);
    }
  }

  lemma ByteDigits(hi: int, lo: int)
    requires 0 <= hi < 16 && 0 <= lo < 16
    ensures (hi * 16 + lo) / 16 == hi && (hi * 16 + lo) % 16 == lo
  {
  }

  /** The first two digits of a hex string denote the first byte, high digit first. */
  lemma LeadingByte(s: string)
    requires |s| >= 2 && |s| % 2 == 0 && AllHex(s)
    ensures FromHex(s) == [FromHex(s)[0]] + FromHex(s[2..])
    ensures FromHex(s)[0] as int / 16 == HexValue(s[0]) && FromHex(s)[0] as int % 16 == HexValue(s[1])
  {
    var hi, lo := HexValue(s[0]), HexValue(s[1]);
    ByteDigits(hi, lo);
    assert FromHex(s)[0] as int == hi * 16 + lo;
  }

  lemma ToHexCons(b: byte, rest: seq<byte>)
    ensures ToHex([b] + rest) == [HexDigit(b as int / 16), HexDigit(b as int % 16)] + ToHex(rest)
  {
    assert ([b] + rest)[1..] == rest;
  }

  lemma LowerPair(s: string)
    requires |s| >= 2
    ensures Lower(s) == [LowerChar(s[0]), LowerChar(s[1])] + Lower(s[2..])
  {
    assert s[1..][1..] == s[2..];
  }

  lemma {:induction false} ToHexOfFromHex(s: string)
    requires |s| % 2 == 0 && AllHex(s)
    ensures ToHex(FromHex(s)) == Lower(s)
  {
    if s != "" {
      LeadingByte(s);
      ToHexCons(FromHex(s)[0], FromHex(s[2..]));
      ToHexOfFromHex(s[2..]);
      LowerPair(s);
    }
  }

  /** The strings the model accepts as an ObjectId: 24 hexadecimal digits. */
  predicate WellFormedId(s: string)
  {
    |s| == 24 && AllHex(s)
  }

  /** `str(oid)`. */
  function IdString(oid: ObjectId): (s: string)
    ensures WellFormedId(s)
    ensures forall i :: 0 <= i < |s| ==> IsLowerHexChar(s[i])
  {
    ToHex(oid)
  }

  /** `ObjectId(s)` for a string `s`: the id it denotes, or None where bson raises. */
  function Parse(s: string): (r: Option<ObjectId>)
    ensures r.Some? <==> WellFormedId(s)
    ensures r.Some? ==> IdString(r.value) == Lower(s)
  {
    if WellFormedId(s) then
      ToHexOfFromHex(s);
      Some(FromHex(s))
    else
      None
  }

  /** The string form of an id parses back to that id. */
  lemma ParseIdString(oid: ObjectId)
    ensures Parse(IdString(oid)) == Some(oid)
  {
    FromHexOfToHex(oid);
  }

  /** Distinct ids have distinct string forms. */
  lemma IdStringInjective(a: ObjectId, b: ObjectId)
    ensures IdString(a) == IdString(b) ==> a == b
  {
    ParseIdString(a);
    ParseIdString(b);
  }

  /** Parsing ignores the case of the hexadecimal digits. */
  lemma ParseIgnoresCase(s: string)
    ensures Parse(Lower(s)) == Parse(s)
  {
    if WellFormedId(s) {
      assert WellFormedId(Lower(s));
      var a, b := Parse(s).value, Parse(Lower(s)).value;
      assert Lower(Lower(s)) == Lower(s);
      IdStringInjective(a, b);
    }
  }
}
