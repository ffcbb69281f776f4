/** Ruby values as the activity engine sees them, and their `to_s` rendering,
    which string interpolation (`"#{v}"`) uses to build cache keys and list names. */
module Values {

  datatype Option<T> = None | Some(value: T)

  /** A scalar Ruby value: a record id, an attribute read with `send`, a user id
      found by handle, or an option given to `track`. */
  datatype Value = Nil | Bool(b: bool) | Int(i: int) | Str(s: string)

  /** Ruby truthiness: everything except `nil` and `false`. */
  predicate Truthy(v: Value) {
    !v.Nil? && v != Bool(false)
  }

  predicate IsDigit(c: char) {
    '0' <= c <= '9'
  }

  predicate AllDigits(s: string) {
    forall i :: 0 <= i < |s| ==> IsDigit(s[i])
  }

  function DigitChar(d: nat): (c: char)
    requires d < 10
    ensures IsDigit(c) && c as int - '0' as int == d
  {
    ('0' as int + d) as char
  }

  /** `Integer#to_s` of a non-negative integer: its decimal digits, most significant first. */
  function NatToS(n: nat): (r: string)
    ensures 0 < |r| && AllDigits(r)
    ensures 1 < |r| ==> r[0] != '0'
    decreases n
  {
    if n < 10 then [DigitChar(n)] else NatToS(n / 10) + [DigitChar(n % 10)]
  }

  /** `Integer#to_s`: a leading minus sign for negative integers. */
  function IntToS(i: int): (r: string)
    ensures 0 < |r| && (r[0] == '-' <==> i < 0)
    ensures AllDigits(if i < 0 then r[1..] else r)
    ensures i >= 0 ==> ParseNat(r) == i
  {
    if i < 0 then "-" + NatToS(-i) else ParseNatToS(i); NatToS(i)
  }

  /** `to_s` of a scalar: `nil.to_s` is the empty string. */
  function ToS(v: Value): (r: string)
    ensures v.Nil? ==> r == []
    ensures v.Str? ==> r == v.s
    ensures v.Int? ==> 0 < |r| && (r[0] == '-' <==> v.i < 0)
    ensures v.Int? && v.i >= 0 ==> AllDigits(r) && ParseNat(r) == v.i
  {
    match v
    case Nil => ""
    case Bool(b) => if b then "true" else "false"
    case Int(i) => IntToS(i)
    case Str(s) => s
  }

  function DigitValue(c: char): nat {
    if IsDigit(c) then c as int - '0' as int else 0
  }

  /** The number a string of decimal digits denotes. */
  function ParseNat(s: string): nat {
    if s == [] then 0 else 10 * ParseNat(s[..|s| - 1]) + DigitValue(s[|s| - 1])
  }

  /** Reading back the decimal rendering of a number gives the number. */
  lemma {:induction false} ParseNatToS(n: nat)
    ensures ParseNat(NatToS(n)) == n
    decreases n
  {
    if n >= 10 {
      var s := NatToS(n);
      assert s == NatToS(n / 10) + [DigitChar(n % 10)];
      assert s[..|s| - 1] == NatToS(n / 10);
      ParseNatToS(n / 10);
    }
  }

  /** Distinct numbers have distinct decimal renderings, so list names built from
      integer ids never collide. */
  lemma IntToSInjective(a: int, b: int)
    requires IntToS(a) == IntToS(b)
    ensures a == b
  {
    if a < 0 && b < 0 {
      assert NatToS(-a) == IntToS(a)[1..] == IntToS(b)[1..] == NatToS(-b);
      ParseNatToS(-a);
      ParseNatToS(-b);
    } else if a >= 0 && b >= 0 {
      ParseNatToS(a);
      ParseNatToS(b);
    }
  }

  function LowerChar(c: char): char {
    if 'A' <= c <= 'Z' then (c as int + 32) as char else c
  }

  /** `String#downcase` on ASCII letters. */
  function Downcase(s: string): string {
    seq(|s|, i requires 0 <= i < |s| => LowerChar(s[i]))
  }
}
