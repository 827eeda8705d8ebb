/**
 Text at the level both languages agree on: decimal and hexadecimal digits, and the white space that
 Kotlin's `trim` removes.
 */
module Text {
  import opened Wrappers

  function Digit(d: nat): char
    requires d < 10
  {
    (d + '0' as int) as char
  }

  predicate IsDigit(c: char) { '0' <= c <= '9' }

  function DigitValue(c: char): nat
    requires IsDigit(c)
  {
    c as int - '0' as int
  }

  /** Decimal digits of `n`, most significant first. */
  function Decimal(n: nat): string
  {
    if n < 10 then [Digit(n)] else Decimal(n / 10) + [Digit(n % 10)]
  }

  function DecimalInt(i: int): string { if i < 0 then "-" + Decimal(-i) else Decimal(i) }

  predicate AllDigits(s: string) { forall k :: 0 <= k < |s| ==> IsDigit(s[k]) }

  function DecimalValue(s: string): nat
    requires AllDigits(s)
  {
    if s == [] then 0 else 10 * DecimalValue(s[..|s| - 1]) + DigitValue(s[|s| - 1])
  }

  lemma {:induction false} DecimalRoundTrip(n: nat)
    ensures Decimal(n) != [] && AllDigits(Decimal(n)) && DecimalValue(Decimal(n)) == n
    ensures |Decimal(n)| > 1 ==> Decimal(n)[0] != '0'
  {
    if n < 10 {
      assert Decimal(n)[..0] == [];
    } else {
      DecimalRoundTrip(n / 10);
      var s := Decimal(n);
      assert s[..|s| - 1] == Decimal(n / 10);
      if n / 10 < 10 {
        assert Decimal(n / 10)[0] != '0';
      }
    }
  }

  /** The other way round: digits without a leading zero are the ones printed for their value. */
  lemma {:induction false} NumeralRoundTrip(s: string)
    requires s != "" && AllDigits(s) && (|s| > 1 ==> s[0] != '0')
    ensures Decimal(DecimalValue(s)) == s && (|s| > 1 ==> DecimalValue(s) >= 10)
  {
    var n := |s| - 1;
    assert s == s[..n] + [s[n]];
    if n == 0 {
      assert s[..0] == "" && Digit(DigitValue(s[0])) == s[0];
    } else {
      NumeralRoundTrip(s[..n]);
      hide Decimal;
      assert DecimalValue(s[..n]) > 0 by {
        if n == 1 {
          assert s[..1][..0] == "";
        }
      }
      DecimalTimesTen(DecimalValue(s[..n]), DigitValue(s[n]));
    }
  }

  lemma DecimalTimesTen(n: nat, d: nat)
    requires n > 0 && d < 10
    ensures Decimal(10 * n + d) == Decimal(n) + [Digit(d)]
  {
    assert (10 * n + d) / 10 == n && (10 * n + d) % 10 == d;
  }

  /** The integers a Kotlin Long holds. */
  predicate IsLong(i: int) { -0x8000_0000_0000_0000 <= i <= 0x7fff_ffff_ffff_ffff }

  /** `String.toLongOrNull` on ASCII text: optional sign, at least one digit, in range. */
  function ToLongOrNull(s: string): Option<int>
  {
    var digits := if s != [] && (s[0] == '-' || s[0] == '+') then s[1..] else s;
    if digits == [] || !AllDigits(digits) then None
    else
      var value: int := DecimalValue(digits);
      var i := if s[0] == '-' then -value else value;
      if IsLong(i) then Some(i) else None
  }

  lemma LongOfDigits(digits: string)
    requires digits != [] && AllDigits(digits)
    ensures ToLongOrNull(digits) == if IsLong(DecimalValue(digits)) then Some(DecimalValue(digits)) else None
    ensures var value: int := DecimalValue(digits);
      ToLongOrNull("-" + digits) == if IsLong(-value) then Some(-value) else None
  {
    hide DecimalValue;
    assert IsDigit(digits[0]);
    assert ("-" + digits)[0] == '-' && ("-" + digits)[1..] == digits;
  }

  /** `s` is a sign, or none, and then digits, and denotes `i`. */
  predicate Denotes(s: string, sign: string, digits: string, i: int)
  {
    && s == sign + digits && digits != "" && AllDigits(digits)
    && ((sign in {"", "+"} && i == DecimalValue(digits)) || (sign == "-" && i == -(DecimalValue(digits) as int)))
  }

  lemma LongIff(s: string, i: int)
    ensures ToLongOrNull(s) == Some(i) <==>
      && -9_223_372_036_854_775_808 <= i <= 9_223_372_036_854_775_807
      && exists sign: string, digits: string :: Denotes(s, sign, digits, i)
  {
    hide DecimalValue;
    if ToLongOrNull(s) == Some(i) {
      if s[0] == '-' || s[0] == '+' {
        assert s[..1] == [s[0]] && (s[..1] == "-" || s[..1] == "+");
        assert s == s[..1] + s[1..] && Denotes(s, s[..1], s[1..], i);
      } else {
        assert s == "" + s && Denotes(s, "", s, i);
      }
    }
    if sign: string, digits: string :| Denotes(s, sign, digits, i) {
      assert IsDigit(digits[0]);
      if sign == "" {
        assert s == digits;
      } else {
        assert s[0] == sign[0] && s[1..] == digits;
      }
    }
  }

  lemma LongRoundTrip(i: int)
    ensures ToLongOrNull(DecimalInt(i)) == if IsLong(i) then Some(i) else None
  {
    hide Decimal, DecimalValue, ToLongOrNull, AllDigits;
    var n := if i < 0 then -i else i;
    DecimalRoundTrip(n);
    LongOfDigits(Decimal(n));
  }

  function HexDigit(d: nat): char
    requires d < 16
  {
    if d < 10 then Digit(d) else (d - 10 + 'a' as int) as char
  }

  function HexValue(c: char): Option<nat>
  {
    if IsDigit(c) then Some(DigitValue(c))
    else if 'a' <= c <= 'f' then Some(c as int - 'a' as int + 10)
    else if 'A' <= c <= 'F' then Some(c as int - 'A' as int + 10)
    else None
  }

  /** Four lower-case hexadecimal digits. */
  function Hex4(n: nat): string
    requires n < 0x10000
  {
    [HexDigit(n / 0x1000), HexDigit(n / 0x100 % 0x10), HexDigit(n / 0x10 % 0x10), HexDigit(n % 0x10)]
  }

  function Hex4Value(s: string): Option<nat>
    requires |s| == 4
  {
    match (HexValue(s[0]), HexValue(s[1]), HexValue(s[2]), HexValue(s[3]))
    case (Some(a), Some(b), Some(c), Some(d)) => Some(0x1000 * a + 0x100 * b + 0x10 * c + d)
    case _ => None
  }

  lemma HexDigitRoundTrip(d: nat)
    requires d < 16
    ensures HexValue(HexDigit(d)) == Some(d)
  {
  }

  lemma Hex4RoundTrip(n: nat)
    requires n < 0x10000
    ensures Hex4Value(Hex4(n)) == Some(n)
  {
    var b, c := n / 0x10, n / 0x100;
    assert c == b / 0x10 && n / 0x1000 == c / 0x10;
    HexDigitRoundTrip(c / 0x10);
    HexDigitRoundTrip(c % 0x10);
    HexDigitRoundTrip(b % 0x10);
    HexDigitRoundTrip(n % 0x10);
  }

  /** `Char.isWhitespace`: what Kotlin's `trim` strips and a blank string consists of. */
  predicate IsWhitespace(c: char)
  {
    var n := c as int;
    0x09 <= n <= 0x0D || 0x1C <= n <= 0x20 || n == 0xA0 || n == 0x1680 || 0x2000 <= n <= 0x200A ||
    n == 0x2028 || n == 0x2029 || n == 0x202F || n == 0x205F || n == 0x3000
  }

  function TrimStart(s: string): string
  {
    if s != [] && IsWhitespace(s[0]) then TrimStart(s[1..]) else s
  }

  function TrimEnd(s: string): string
  {
    if s != [] && IsWhitespace(s[|s| - 1]) then TrimEnd(s[..|s| - 1]) else s
  }

  function Trim(s: string): string { TrimEnd(TrimStart(s)) }

  lemma {:induction false} TrimStartIs(s: string) returns (before: string)
    ensures s == before + TrimStart(s) && IsBlank(before)
    ensures TrimStart(s) != "" ==> !IsWhitespace(TrimStart(s)[0])
  {
    if s != "" && IsWhitespace(s[0]) {
      before := TrimStartIs(s[1..]);
      before := [s[0]] + before;
    } else {
      before := "";
    }
  }

  lemma {:induction false} TrimEndIs(s: string) returns (after: string)
    ensures s == TrimEnd(s) + after && IsBlank(after)
    ensures TrimEnd(s) != "" ==> !IsWhitespace(TrimEnd(s)[|TrimEnd(s)| - 1])
  {
    if s != "" && IsWhitespace(s[|s| - 1]) {
      after := TrimEndIs(s[..|s| - 1]);
      after := after + [s[|s| - 1]];
    } else {
      after := "";
    }
  }

  /** Trimming takes white space off both ends, as much as there is, and nothing else. */
  lemma TrimIs(s: string) returns (before: string, after: string)
    ensures s == before + Trim(s) + after && IsBlank(before) && IsBlank(after)
    ensures Trim(s) != "" ==> !IsWhitespace(Trim(s)[0]) && !IsWhitespace(Trim(s)[|Trim(s)| - 1])
  {
    before := TrimStartIs(s);
    after := TrimEndIs(TrimStart(s));
    hide TrimStart, TrimEnd, IsWhitespace;
    assert s == before + (Trim(s) + after);
  }

  predicate IsBlank(s: string) { forall k :: 0 <= k < |s| ==> IsWhitespace(s[k]) }

  predicate StartsWith(s: string, prefix: string) { prefix <= s }
}
