/**
 * The BSON ObjectId as the mapper sees it: an opaque 12-byte value whose
 * text form (`str(oid)`) is its 24 lower-case hexadecimal digits, and whose
 * constructor from text (`ObjectId(s)`) accepts exactly 24 hexadecimal
 * digits of either case (base16 as in section 8 of RFC 4648).
 */
module Bson {
  import opened Wrappers

  type Byte = x: int | 0 <= x < 256

  type OidBytes = s: seq<Byte> | |s| == 12 witness [0, 0, 0, 0, 0, 0, 0, 0, 0, 0, 0, 0]

  /** A BSON ObjectId: twelve raw bytes. How they are generated is not modelled. */
  datatype ObjectId = ObjectId(binary: OidBytes)

  /** Length of the text form of an ObjectId. */
  const HexLength: nat := 24

  predicate IsLowerHexChar(c: char) {
    '0' <= c <= '9' || 'a' <= c <= 'f'
  }

  predicate IsHexChar(c: char) {
    IsLowerHexChar(c) || 'A' <= c <= 'F'
  }

  predicate IsHex(s: string) {
    forall i :: 0 <= i < |s| ==> IsHexChar(s[i])
  }

  predicate IsLowerHex(s: string) {
    forall i :: 0 <= i < |s| ==> IsLowerHexChar(s[i])
  }

  /** The value of one hexadecimal digit. */
  function DigitValue(c: char): (v: nat)
    requires IsHexChar(c)
    ensures v < 16
  {
    if '0' <= c <= '9' then c as int - '0' as int
    else if 'a' <= c <= 'f' then c as int - 'a' as int + 10
    else c as int - 'A' as int + 10
  }

  /** The lower-case digit for a value below 16; the inverse of DigitValue. */
  function DigitChar(v: nat): (c: char)
    requires v < 16
    ensures IsLowerHexChar(c) && DigitValue(c) == v
  {
    if v < 10 then ('0' as int + v) as char else ('a' as int + v - 10) as char
  }

  /** ASCII lower-casing of a hexadecimal digit. */
  function LowerDigit(c: char): char {
    if 'A' <= c <= 'F' then (c as int - 'A' as int + 'a' as int) as char else c
  }

  function LowerHex(s: string): (r: string)
    ensures |r| == |s|
  {
    if s == [] then [] else [LowerDigit(s[0])] + LowerHex(s[1..])
  }

  /** binascii.hexlify: two lower-case digits per byte, high nibble first. */
  function Hexlify(bs: seq<Byte>): (s: string)
    ensures |s| == 2 * |bs|
    ensures IsLowerHex(s)
  {
    if bs == [] then []
    else [DigitChar(bs[0] / 16), DigitChar(bs[0] % 16)] + Hexlify(bs[1..])
  }

  /** bytes.fromhex, restricted to inputs without whitespace: None on a non-digit or an odd length. */
  function Unhexlify(s: string): (r: Option<seq<Byte>>)
    ensures r.Some? <==> |s| % 2 == 0 && IsHex(s)
    ensures r.Some? ==> 2 * |r.value| == |s|
    decreases |s|
  {
    if s == [] then Some([])
    else if |s| == 1 || !IsHexChar(s[0]) || !IsHexChar(s[1]) then None
    else
      match Unhexlify(s[2..])
      case None => None
      case Some(rest) => Some([(DigitValue(s[0]) * 16 + DigitValue(s[1])) as Byte] + rest)
  }

  /** str(oid): the 24 lower-case hex digits of the ObjectId. */
  function ToString(oid: ObjectId): (s: string)
    ensures |s| == HexLength && IsLowerHex(s)
  {
    Hexlify(oid.binary)
  }

  /** ObjectId(s): defined exactly on strings of 24 hexadecimal digits (InvalidId otherwise). */
  function FromString(s: string): (r: Option<ObjectId>)
    ensures r.Some? <==> |s| == HexLength && IsHex(s)
  {
    if |s| != HexLength then None
    else
      match Unhexlify(s)
      case None => None
      case Some(bytes) => Some(ObjectId(bytes))
  }

  lemma {:induction false} UnhexlifyHexlify(bs: seq<Byte>)
    ensures Unhexlify(Hexlify(bs)) == Some(bs)
  {
    if bs != [] {
      var s := Hexlify(bs);
      UnhexlifyHexlify(bs[1..]);
      assert s[2..] == Hexlify(bs[1..]);
      assert DigitValue(s[0]) * 16 + DigitValue(s[1]) == bs[0];
      assert [bs[0]] + bs[1..] == bs;
    }
  }

  lemma {:induction false} HexlifyUnhexlify(s: string)
    requires Unhexlify(s).Some?
    ensures Hexlify(Unhexlify(s).value) == LowerHex(s)
  {
    if s != [] {
      var rest := Unhexlify(s[2..]).value;
      HexlifyUnhexlify(s[2..]);
      var b := DigitValue(s[0]) * 16 + DigitValue(s[1]);
      assert b / 16 == DigitValue(s[0]) && b % 16 == DigitValue(s[1]);
      assert DigitChar(DigitValue(s[0])) == LowerDigit(s[0]);
      assert DigitChar(DigitValue(s[1])) == LowerDigit(s[1]);
      assert LowerHex(s) == [LowerDigit(s[0]), LowerDigit(s[1])] + LowerHex(s[2..]) by {
        assert LowerHex(s[1..]) == [LowerDigit(s[1])] + LowerHex(s[1..][1..]);
        assert s[1..][1..] == s[2..];
      }
    }
  }

  lemma {:induction false} LowerHexOfLower(s: string)
    requires IsLowerHex(s)
    ensures LowerHex(s) == s
  {
    if s != [] {
      LowerHexOfLower(s[1..]);
    }
  }

  /** Parsing the text form of an ObjectId gives the same ObjectId back. */
  lemma FromStringToString(oid: ObjectId)
    ensures FromString(ToString(oid)) == Some(oid)
  {
    UnhexlifyHexlify(oid.binary);
  }

  /** Printing a parsed ObjectId gives the parsed text, lower-cased; unchanged when it was lower-case. */
  lemma ToStringFromString(s: string)
    requires FromString(s).Some?
    ensures ToString(FromString(s).value) == LowerHex(s)
    ensures IsLowerHex(s) ==> ToString(FromString(s).value) == s
  {
    HexlifyUnhexlify(s);
    if IsLowerHex(s) {
      LowerHexOfLower(s);
    }
  }
}
