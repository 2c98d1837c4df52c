/** Decimal numerals as Go's `%d` verb prints them and `strconv.ParseInt(_, 10, 64)` reads them. */
module Decimal {
  import opened Wrappers

  const LIMIT: int := 0x8000_0000_0000_0000

  predicate IsInt64(n: int) {
    -LIMIT <= n < LIMIT
  }

  predicate IsDigit(c: char) {
    '0' <= c <= '9'
  }

  function DigitOf(d: nat): char
    requires d < 10
  {
    '0' + d as char
  }

  function Digits(n: nat): string {
    if n < 10 then [DigitOf(n)] else Digits(n / 10) + [DigitOf(n % 10)]
  }

  function Format(n: int): string {
    if n < 0 then "-" + Digits(-n) else Digits(n)
  }

  /** Digits only, and at least one. */
  function ParseNat(s: string): Option<nat> {
    if s == [] || !IsDigit(s[|s| - 1]) then None
    else
      var d: nat := (s[|s| - 1] - '0') as nat;
      if |s| == 1 then Some(d)
      else
        match ParseNat(s[..|s| - 1])
        case None => None
        case Some(n) => Some(10 * n + d)
  }

  /** An optional sign, digits, and a value that fits in 64 bits. */
  function ParseInt64(s: string): Option<int> {
    if s == [] then None
    else
      var negative := s[0] == '-';
      match ParseNat(if s[0] == '-' || s[0] == '+' then s[1..] else s)
      case None => None
      case Some(n) =>
        var value := (if negative then -1 else 1) * n;
        if IsInt64(value) then Some(value) else None
  }

  /** Unsigned numerals are read exactly when they are digits throughout, leading zeros included. */
  lemma {:induction false} ParseNatExactlyWhen(s: string)
    ensures ParseNat(s).Some? <==> s != [] && forall c :: c in s ==> '0' <= c <= '9'
  {
    if |s| > 1 {
      var n := |s| - 1;
      ParseNatExactlyWhen(s[..n]);
      assert s == s[..n] + [s[n]];
      assert s[n] in s && forall c :: c in s[..n] ==> c in s;
    } else if |s| == 1 {
      assert s[0] in s;
    }
  }

  /** A sign is read off the front; what is left must be an unsigned numeral, and the number must fit in 64 bits. */
  lemma ParseSigned(s: string, n: nat)
    requires ParseNat(s) == Some(n)
    ensures ParseInt64("+" + s) == ParseInt64(s) == if n < 0x8000_0000_0000_0000 then Some(n) else None
    ensures ParseInt64("-" + s) == if n <= 0x8000_0000_0000_0000 then Some(0 - n) else None
  {
    ParseNatExactlyWhen(s);
    assert s[0] in s;
    assert ("+" + s)[1..] == s && ("-" + s)[1..] == s;
  }

  lemma {:induction false} DigitsAreDigits(n: nat)
    ensures Digits(n) != [] && forall c :: c in Digits(n) ==> IsDigit(c)
  {
    if n >= 10 {
      DigitsAreDigits(n / 10);
    }
  }

  lemma {:induction false} ParseDigits(n: nat)
    ensures ParseNat(Digits(n)) == Some(n)
  {
    if n >= 10 {
      ParseDigits(n / 10);
      DigitsAreDigits(n / 10);
      var s := Digits(n);
      assert s[..|s| - 1] == Digits(n / 10);
    }
  }

  /** Every 64-bit integer survives printing and parsing; a numeral outside that range is refused. */
  lemma ParseFormat(n: int)
    ensures ParseInt64(Format(n)) == if IsInt64(n) then Some(n) else None
  {
    SignFirst(n);
    var digits := Digits(if n < 0 then -n else n);
    ParseDigits(if n < 0 then -n else n);
    assert digits == if n < 0 then Format(n)[1..] else Format(n);
  }

  /** How a numeral is spelled: digit by digit, most significant first, with a minus sign for negative numbers. */
  lemma FormatSpelled(n: nat, d: nat)
    requires d < 10
    ensures Format(d) == ["0123456789"[d]]
    ensures n > 0 ==> Format(10 * n + d) == Format(n) + ["0123456789"[d]]
    ensures n > 0 ==> Format(0 - n) == "-" + Format(n)
  {
    assert DigitOf(d) == "0123456789"[d];
    assert (10 * n + d) / 10 == n && (10 * n + d) % 10 == d;
  }

  lemma FormatHas(n: int, c: char)
    requires c in Format(n)
    ensures IsDigit(c) || c == '-'
  {
    DigitsAreDigits(if n < 0 then -n else n);
  }

  lemma SignFirst(n: int)
    ensures Format(n) != [] && (Format(n)[0] == '-' <==> n < 0) && Format(n)[0] != '+'
  {
    if n >= 0 {
      DigitsAreDigits(n);
      assert Format(n)[0] in Digits(n);
    }
  }

  lemma FormatInjective(m: int, n: int)
    requires Format(m) == Format(n)
    ensures m == n
  {
    SignFirst(m);
    SignFirst(n);
    var a: nat, b: nat := if m < 0 then -m else m, if n < 0 then -n else n;
    assert Digits(a) == (if m < 0 then Format(m)[1..] else Format(m)) == Digits(b);
    ParseDigits(a);
    ParseDigits(b);
  }
}
