/** Java's decimal conversions of an int: String.valueOf(int) and Integer.parseInt(String). */
module Decimal {
  import opened Wrappers

  /** Java's 32-bit int. */
  newtype int32 = x: int | -0x8000_0000 <= x < 0x8000_0000

  /** The NumberFormatException that Integer.parseInt throws, for a bad string or for null. */
  datatype NumberFormatError = NumberFormat(input: string) | NullInput

  predicate IsDigit(c: char)
  {
    '0' <= c <= '9'
  }

  predicate AllDigits(s: string)
  {
    forall i :: 0 <= i < |s| ==> IsDigit(s[i])
  }

  function DigitChar(d: int): (c: char)
    requires 0 <= d < 10
    ensures IsDigit(c)
  {
    ('0' as int + d) as char
  }

  function DigitValue(c: char): (d: int)
    requires IsDigit(c)
    ensures 0 <= d < 10 && DigitChar(d) == c
  {
    c as int - '0' as int
  }

  /** The digits of n, most significant first, without leading zeros. */
  function ShowNat(n: nat): (r: string)
    ensures r != [] && AllDigits(r)
    ensures n != 0 ==> r[0] != '0'
    ensures n == 0 <==> r == "0"
  {
    if n < 10 then [DigitChar(n)] else ShowNat(n / 10) + [DigitChar(n % 10)]
  }

  /** String.valueOf(int): an optional minus sign, then the digits of the magnitude. */
  function Show(n: int32): (r: string)
    ensures r != []
    ensures r[0] == '-' <==> n < 0
  {
    if n < 0 then "-" + ShowNat(-(n as int)) else ShowNat(n as int)
  }

  /** The value of a run of decimal digits, most significant first. */
  function DigitsValue(ds: string): nat
    requires AllDigits(ds)
  {
    if ds == [] then 0 else DigitsValue(ds[..|ds| - 1]) * 10 + DigitValue(ds[|ds| - 1])
  }

  /**
   * Integer.parseInt(s): an optional '+' or '-', then at least one digit; the value
   * must fit in 32 bits. Every other input throws NumberFormatException.
   */
  function ParseInt(s: string): (r: Result<int32, NumberFormatError>)
    ensures r.Failure? ==> r.error == NumberFormat(s)
    ensures s == [] ==> r.Failure?
    ensures (exists i :: 1 <= i < |s| && !IsDigit(s[i])) ==> r.Failure?
    ensures r.Success? ==> IsDigit(s[|s| - 1])
    ensures r.Success? && r.value < 0 ==> s[0] == '-'
  {
    if s == [] then Failure(NumberFormat(s))
    else
      var signed := s[0] == '-' || s[0] == '+';
      var digits := if signed then s[1..] else s;
      if digits == [] || !AllDigits(digits) then Failure(NumberFormat(s))
      else
        var v := if s[0] == '-' then -(DigitsValue(digits) as int) else DigitsValue(digits) as int;
        if -0x8000_0000 <= v < 0x8000_0000 then Success(v as int32) else Failure(NumberFormat(s))
  }

  lemma {:induction false} DigitsValueOfShowNat(n: nat)
    ensures DigitsValue(ShowNat(n)) == n
  {
    if n >= 10 {
      var prefix := ShowNat(n / 10);
      var s := prefix + [DigitChar(n % 10)];
      assert s[..|s| - 1] == prefix;
      DigitsValueOfShowNat(n / 10);
    }
  }

  /** Parsing what String.valueOf printed gives the int back: the port round trip. */
  lemma ParseShow(n: int32)
    ensures ParseInt(Show(n)) == Success(n)
  {
    var s := Show(n);
    if n < 0 {
      var m := -(n as int);
      assert s == "-" + ShowNat(m);
      assert s[1..] == ShowNat(m);
      DigitsValueOfShowNat(m);
      assert DigitsValue(s[1..]) == m;
    } else {
      var m := n as int;
      assert s == ShowNat(m);
      assert IsDigit(s[0]);
      DigitsValueOfShowNat(m);
    }
  }

  /** The round trip for every int at once. */
  lemma ParseShowAll()
    ensures forall n: int32 :: ParseInt(Show(n)) == Success(n)
  {
    forall n: int32 {
      ParseShow(n);
    }
  }

  /** Different ints never print the same (a consequence of the round trip). */
  lemma ShowInjective(m: int32, n: int32)
    requires Show(m) == Show(n)
    ensures m == n
  {
    ParseShow(m);
    ParseShow(n);
  }

  lemma {:induction false} DigitsValueLeadingZero(ds: string)
    requires AllDigits(ds)
    ensures AllDigits("0" + ds) && DigitsValue("0" + ds) == DigitsValue(ds)
  {
    if ds != [] {
      var zs := "0" + ds;
      assert zs[..|zs| - 1] == "0" + ds[..|ds| - 1];
      DigitsValueLeadingZero(ds[..|ds| - 1]);
    }
  }

  /** parseInt is not the exact inverse of valueOf: it also accepts a leading zero. */
  lemma ParseAcceptsLeadingZero(n: int32)
    requires n >= 0
    ensures ParseInt("0" + Show(n)) == Success(n)
  {
    DigitsValueLeadingZero(ShowNat(n as int));
    DigitsValueOfShowNat(n as int);
  }

  /** parseInt also accepts an explicit plus sign. */
  lemma ParseAcceptsPlusSign(n: int32)
    requires n >= 0
    ensures ParseInt("+" + Show(n)) == Success(n)
  {
    var s := "+" + Show(n);
    assert s[1..] == Show(n);
    DigitsValueOfShowNat(n as int);
  }

  lemma DigitsValueSnoc(ds: string, c: char)
    requires AllDigits(ds) && IsDigit(c)
    ensures AllDigits(ds + [c]) && DigitsValue(ds + [c]) == DigitsValue(ds) * 10 + DigitValue(c)
  {
    assert (ds + [c])[..|ds|] == ds;
  }

  /** The digits one past Java's largest int. */
  lemma DigitsValueOfTwoToThe31()
    ensures AllDigits("2147483648") && DigitsValue("2147483648") == 0x8000_0000
  {
    var big := "2147483648";
    DigitsValueSnoc("", '2');
    assert "" + ['2'] == "2";
    DigitsValueSnoc("2", '1');
    assert "2" + ['1'] == "21";
    DigitsValueSnoc("21", '4');
    assert "21" + ['4'] == "214";
    DigitsValueSnoc("214", '7');
    assert "214" + ['7'] == "2147";
    DigitsValueSnoc("2147", '4');
    assert "2147" + ['4'] == "21474";
    DigitsValueSnoc("21474", '8');
    assert "21474" + ['8'] == "214748";
    DigitsValueSnoc("214748", '3');
    assert "214748" + ['3'] == "2147483";
    DigitsValueSnoc("2147483", '6');
    assert "2147483" + ['6'] == "21474836";
    DigitsValueSnoc("21474836", '4');
    assert "21474836" + ['4'] == "214748364";
    DigitsValueSnoc("214748364", '8');
    assert "214748364" + ['8'] == "2147483648";
  }

  /** Inputs parseInt refuses: the empty string, a lone sign, a non-digit, a value past 32 bits. */
  lemma ParseRejects()
    ensures ParseInt("").Failure?
    ensures ParseInt("-").Failure? && ParseInt("+").Failure?
    ensures ParseInt("9000 ").Failure?
    ensures ParseInt("2147483648").Failure?
  {
    assert "9000 "[4] == ' ';
    DigitsValueOfTwoToThe31();
  }

  /** Java's smallest int is accepted, although its magnitude alone is out of range. */
  lemma ParseMinValue()
    ensures ParseInt("-2147483648") == Success(-0x8000_0000)
  {
    DigitsValueOfTwoToThe31();
    assert "-2147483648"[1..] == "2147483648";
  }
}
