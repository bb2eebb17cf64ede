/**
 * Bytes, 16-bit words and the text conversions the protocol relies on:
 * ASCII literals, Rust's `to_string` for unsigned integers and Rust's
 * `str::parse` for unsigned integers.
 */
module Bytes {
  import opened Wrappers

  /** A `u8`. */
  type Byte = b: int | 0 <= b < 0x100

  /** A `u16`. */
  type U16 = x: int | 0 <= x < 0x1_0000

  /**
   * Text as carried on the wire. The Rust code turns bytes into a `String`
   * with `from_utf8_lossy` and back with `as_bytes`; the model keeps the
   * bytes, so both conversions are the identity here.
   */
  type Text = seq<Byte>

  /** The ASCII code of '+'. */
  const Plus: Byte := 43

  /** The ASCII code of ','. */
  const Comma: Byte := 44

  /** The bytes of an ASCII string literal. */
  function Ascii(s: string): (r: Text)
    requires forall i | 0 <= i < |s| :: s[i] as int < 0x80
    ensures |r| == |s|
    ensures forall i | 0 <= i < |s| :: r[i] == s[i] as int
  {
    if s == [] then [] else [s[0] as int] + Ascii(s[1..])
  }

  /** The bytes of a word of capital letters. */
  function Capitals(s: string): (r: Text)
    requires forall i | 0 <= i < |s| :: 'A' <= s[i] <= 'Z'
    ensures |r| == |s|
    ensures forall i | 0 <= i < |s| :: r[i] == s[i] as int && 65 <= r[i] <= 90
  {
    Ascii(s)
  }

  predicate IsDigit(b: Byte) {
    '0' as int <= b <= '9' as int
  }

  predicate AllDigits(s: Text) {
    forall i | 0 <= i < |s| :: IsDigit(s[i])
  }

  /** The number a string of decimal digits denotes, most significant digit first. */
  function DigitsValue(s: Text): nat
    requires AllDigits(s)
  {
    if s == [] then 0 else DigitsValue(s[..|s| - 1]) * 10 + (s[|s| - 1] - '0' as int)
  }

  /**
   * Rust's `to_string` on an unsigned integer: its decimal digits, most
   * significant first, with no leading zero.
   */
  function Decimal(n: nat): (r: Text)
    ensures r != [] && AllDigits(r)
    ensures r[0] == '0' as int ==> n == 0
    ensures n < 10 ==> |r| == 1
    ensures 10 <= n < 100 ==> |r| == 2
    ensures 100 <= n < 1000 ==> |r| == 3
    decreases n
  {
    if n < 10 then [n + '0' as int] else Decimal(n / 10) + [n % 10 + '0' as int]
  }

  /** The digits left once Rust's optional leading '+' is dropped. */
  function Magnitude(s: Text): Text {
    if |s| > 0 && s[0] == Plus then s[1..] else s
  }

  /**
   * Rust's `str::parse` for an unsigned integer type whose largest value is
   * `max` (255 for `u8`, 65535 for `u16`): an optional '+', then one or
   * more decimal digits denoting a value no larger than `max`. Anything
   * else (the empty text, a lone '+', a '-', a space, a value out of range)
   * is refused.
   */
  function ParseUnsigned(s: Text, max: nat): (r: Option<nat>)
    ensures r.Some? ==> r.value <= max
  {
    var digits := Magnitude(s);
    if digits != [] && AllDigits(digits) && DigitsValue(digits) <= max then Some(DigitsValue(digits)) else None
  }

  /** Reading back what `Decimal` writes gives the number again. */
  lemma {:induction false} DecimalValue(n: nat)
    ensures DigitsValue(Decimal(n)) == n
    decreases n
  {
    if n >= 10 {
      var s := Decimal(n / 10);
      var t := s + [n % 10 + '0' as int];
      DecimalValue(n / 10);
      assert t[..|t| - 1] == s;
      assert Decimal(n) == t;
    }
  }

  /** `parse` inverts `to_string` for every value of the type. */
  lemma ParseDecimal(n: nat, max: nat)
    requires n <= max
    ensures ParseUnsigned(Decimal(n), max) == Some(n)
  {
    DecimalValue(n);
    assert Magnitude(Decimal(n)) == Decimal(n);
  }

  /** A byte that is neither a digit nor a leading '+' makes `parse` fail. */
  lemma ParseRejectsNonDigit(s: Text, max: nat, i: nat)
    requires i < |s| && !IsDigit(s[i])
    requires i == 0 ==> s[i] != Plus
    ensures ParseUnsigned(s, max) == None
  {
    var digits := Magnitude(s);
    if |s| > 0 && s[0] == Plus {
      assert digits[i - 1] == s[i];
    } else {
      assert digits[i] == s[i];
    }
  }

  /** The empty text and a lone '+' are refused. */
  lemma ParseRejectsEmpty(max: nat)
    ensures ParseUnsigned([], max) == None
    ensures ParseUnsigned([Plus], max) == None
  {
    assert Magnitude([Plus]) == [];
  }

  /** All-digit text denoting more than the type's largest value is refused: `"256"` is no `u8`. */
  lemma ParseRejectsOverflow(s: Text, max: nat)
    requires s != [] && AllDigits(s) && DigitsValue(s) > max
    ensures ParseUnsigned(s, max) == None
  {
    assert Magnitude(s) == s by {
      assert IsDigit(s[0]);
    }
  }

  /** One leading '+' is accepted and changes nothing: `"+7"` reads as 7. */
  lemma ParseLeadingPlus(s: Text, max: nat)
    requires s != [] && AllDigits(s)
    ensures ParseUnsigned([Plus] + s, max) == ParseUnsigned(s, max)
  {
    assert Magnitude([Plus] + s) == s;
    assert Magnitude(s) == s by {
      assert IsDigit(s[0]);
    }
  }

  predicate AllZeros(z: Text) {
    forall i | 0 <= i < |z| :: z[i] == '0' as int
  }

  lemma {:induction false} ZerosValue(z: Text)
    requires AllZeros(z)
    ensures AllDigits(z) && DigitsValue(z) == 0
  {
    if z != [] {
      ZerosValue(z[..|z| - 1]);
    }
  }

  /** Leading zeros do not change the number digits denote. */
  lemma {:induction false} LeadingZerosValue(z: Text, s: Text)
    requires AllZeros(z) && AllDigits(s)
    ensures AllDigits(z + s) && DigitsValue(z + s) == DigitsValue(s)
    decreases |s|
  {
    if s == [] {
      assert z + s == z;
      ZerosValue(z);
    } else {
      var t := z + s;
      assert t[..|t| - 1] == z + s[..|s| - 1];
      LeadingZerosValue(z, s[..|s| - 1]);
    }
  }

  /** Leading zeros are accepted: `"007"` reads as 7. */
  lemma ParseLeadingZeros(z: Text, s: Text, max: nat)
    requires AllZeros(z) && s != [] && AllDigits(s)
    ensures ParseUnsigned(z + s, max) == ParseUnsigned(s, max)
  {
    LeadingZerosValue(z, s);
    var t := z + s;
    assert Magnitude(t) == t by {
      assert IsDigit(t[0]);
    }
    assert Magnitude(s) == s by {
      assert IsDigit(s[0]);
    }
  }

  /** `"007"` reads as 7. */
  lemma ParseLeadingZerosExample()
    ensures ParseUnsigned(Ascii("007"), 0xff) == Some(7)
  {
    assert Ascii("007") == Ascii("00") + Decimal(7);
    ParseLeadingZeros(Ascii("00"), Decimal(7), 0xff);
    ParseDecimal(7, 0xff);
  }

  /** `"+35"` reads as 35. */
  lemma ParseLeadingPlusExample()
    ensures ParseUnsigned(Ascii("+35"), 0xff) == Some(35)
  {
    assert Decimal(35) == Decimal(3) + Ascii("5");
    assert Ascii("+35") == [Plus] + Decimal(35);
    ParseLeadingPlus(Decimal(35), 0xff);
    ParseDecimal(35, 0xff);
  }

  /** `"256"` is no `u8`. */
  lemma ParseOverflowExample()
    ensures ParseUnsigned(Ascii("256"), 0xff) == None
  {
    assert Decimal(25) == Decimal(2) + Ascii("5");
    assert Ascii("256") == Decimal(25) + Ascii("6");
    assert Ascii("256") == Decimal(256);
    DecimalValue(256);
    ParseRejectsOverflow(Ascii("256"), 0xff);
  }
}
