/**
 The few PHP values the core passes around: array keys, scalar and array values,
 truthiness (what `?:` and `if ($array)` test) and the decimal spelling of an
 integer (what `'random_' . $i` produces and what an integer is compared as when it
 is matched against a text column).
 */
module Php {

  /** A PHP array key is an integer or a string. PHP stores a string key that is the
      canonical decimal spelling of an integer (such as `"5"`) as that integer, so a
      `StrKey` never holds such a spelling: that key is an `IntKey`. */
  datatype Key = IntKey(i: int) | StrKey(s: string)

  /** The values that occur in the core's arguments. Floats and objects are not modelled. */
  datatype Value = Null | Bool(b: bool) | Int(i: int) | Str(s: string) | Arr(entries: seq<Entry>)

  /** One key/value pair of an ordered PHP array. */
  datatype Entry = Entry(key: Key, value: Value)

  /** PHP's conversion to boolean yields false: NULL, FALSE, 0, "", "0" and the empty array. */
  predicate Falsy(v: Value) {
    match v
    case Null => true
    case Bool(b) => !b
    case Int(i) => i == 0
    case Str(s) => s == "" || s == "0"
    case Arr(es) => |es| == 0
  }

  /** The key of an array entry, seen as a value (as `$bundleOrKey` is). */
  function KeyValue(k: Key): Value {
    match k
    case IntKey(i) => Int(i)
    case StrKey(s) => Str(s)
  }

  /** The values of an ordered array, in order (what an `IN` condition receives). */
  function Values(entries: seq<Entry>): (vs: seq<Value>)
    ensures |vs| == |entries|
    ensures forall i :: 0 <= i < |entries| ==> vs[i] == entries[i].value
  {
    if |entries| == 0 then [] else [entries[0].value] + Values(entries[1..])
  }

  function DigitChar(d: nat): (c: char)
    requires d < 10
  {
    "0123456789"[d]
  }

  predicate IsDigit(c: char) {
    '0' <= c <= '9'
  }

  function DigitValue(c: char): (d: nat)
    requires IsDigit(c)
    ensures d < 10
  {
    (c as int - '0' as int) as nat
  }

  /** The decimal spelling of a natural number, most significant digit first. */
  function NatString(n: nat): (s: string)
    ensures |s| > 0
    ensures forall i :: 0 <= i < |s| ==> IsDigit(s[i])
  {
    if n < 10 then [DigitChar(n)] else NatString(n / 10) + [DigitChar(n % 10)]
  }

  /** PHP's string conversion of an integer. */
  function DecimalString(n: int): string {
    if n < 0 then "-" + NatString(-n) else NatString(n)
  }

  /** Reads a string of decimal digits back as a number. */
  function ParseNat(s: string): nat
    requires forall i :: 0 <= i < |s| ==> IsDigit(s[i])
  {
    if |s| == 0 then 0 else 10 * ParseNat(s[..|s| - 1]) + DigitValue(s[|s| - 1])
  }

  /** Spelling a number and reading it back gives the number again. */
  lemma {:induction false} ParseNatString(n: nat)
    ensures ParseNat(NatString(n)) == n
  {
    if n >= 10 {
      var s := NatString(n);
      assert s[..|s| - 1] == NatString(n / 10);
      ParseNatString(n / 10);
    }
  }

  /** Different numbers are spelled differently. */
  lemma NatStringInjective(a: nat, b: nat)
    requires NatString(a) == NatString(b)
    ensures a == b
  {
    ParseNatString(a);
    ParseNatString(b);
  }
}
