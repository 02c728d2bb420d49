/**
 * The Python values that appear in stored documents, in keyword arguments
 * to a model and in a model's field dump, and Python's `str()` on them.
 */
module Values {
  import opened Wrappers
  import opened Bson

  /** A scalar field value. Floats, dates, nested documents and lists are not modelled. */
  datatype Value =
    | Null
    | Bool(b: bool)
    | Int(i: int)
    | Str(s: string)
    | Oid(oid: ObjectId)

  /** A document or a field dump: a dict from field name to value. */
  type Document = map<string, Value>

  predicate IsDecimal(s: string) {
    forall i :: 0 <= i < |s| ==> '0' <= s[i] <= '9'
  }

  /** The number a string of decimal digits denotes, most significant digit first. */
  function DecimalValue(s: string): nat
    requires IsDecimal(s)
  {
    if s == [] then 0 else DecimalValue(s[..|s| - 1]) * 10 + (s[|s| - 1] as int - '0' as int)
  }

  /** The decimal digits of a natural number, most significant first, without leading zeros. */
  function DecimalDigits(n: nat): (s: string)
    ensures |s| >= 1
    ensures IsDecimal(s)
    ensures n < 10 <==> |s| == 1
  {
    if n < 10 then [('0' as int + n) as char]
    else DecimalDigits(n / 10) + [('0' as int + n % 10) as char]
  }

  /** DecimalDigits is inverted by DecimalValue, and starts with a zero only for zero itself. */
  lemma {:induction false} DecimalDigitsValue(n: nat)
    ensures DecimalValue(DecimalDigits(n)) == n
    ensures n > 0 ==> DecimalDigits(n)[0] != '0'
  {
    if n >= 10 {
      DecimalDigitsValue(n / 10);
      assert DecimalDigits(n)[..|DecimalDigits(n)| - 1] == DecimalDigits(n / 10);
    }
  }

  /** Python's str(): the text a value prints as. */
  function PyStr(v: Value): (r: string)
    ensures v.Str? ==> r == v.s
    ensures v.Oid? ==> |r| == HexLength && IsLowerHex(r) && FromString(r) == Some(v.oid)
    ensures v.Int? ==> |r| >= 1 && (r[0] == '-' <==> v.i < 0)
    ensures v.Null? ==> r == "None"
    ensures v.Bool? ==> r == if v.b then "True" else "False"
  {
    match v
    case Null => "None"
    case Bool(b) => if b then "True" else "False"
    case Int(i) => if i < 0 then "-" + DecimalDigits(-i) else DecimalDigits(i)
    case Str(s) => s
    case Oid(oid) => FromStringToString(oid); ToString(oid)
  }

  /**
   * str() of an int: a leading "-" exactly when it is negative, then decimal
   * digits without a leading zero whose value is the magnitude of the int.
   */
  lemma PyStrOfInt(i: int)
    ensures var r := PyStr(Int(i));
            var digits := if i < 0 then r[1..] else r;
            (r[0] == '-' <==> i < 0) && |digits| >= 1 && IsDecimal(digits)
            && DecimalValue(digits) == (if i < 0 then -i else i)
            && (|digits| > 1 ==> digits[0] != '0')
  {
    if i < 0 {
      DecimalDigitsValue(-i);
      assert PyStr(Int(i))[1..] == DecimalDigits(-i);
    } else {
      DecimalDigitsValue(i);
      assert PyStr(Int(i))[0] == DecimalDigits(i)[0];
    }
  }
}
