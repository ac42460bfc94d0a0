/** `formatNumber` (utils.ts): renders an amount for an input box by dropping every
    non-digit character and putting a comma before each complete group of three
    digits counted from the right. Input boxes read the value back with
    `Number(text.replace(/,/g, ''))`. */
module Format {
  import opened Common
  import opened Text

  /** What `formatNumber` can be handed: a string, an integer, NaN, null or undefined. */
  datatype Value = Str(s: string) | Num(n: int) | NaN | Null | Undefined

  /** JavaScript truthiness of the argument. */
  predicate Truthy(v: Value)
  {
    match v
    case Str(s) => s != ""
    case Num(n) => n != 0
    case _ => false
  }

  /** `value.toString()` for the values that reach it. */
  function ToJsString(v: Value): string
  {
    match v
    case Str(s) => s
    case Num(n) => IntToString(n)
    case NaN => "NaN"
    case Null => "null"
    case Undefined => "undefined"
  }

  /** `s.replace(/\D/g, "")`: the digits of `s`, in order. */
  function DigitsOf(s: string): (d: string)
    ensures AllDigits(d) && |d| <= |s|
  {
    if s == [] then "" else (if IsDigit(s[0]) then [s[0]] else "") + DigitsOf(s[1..])
  }

  /** `s.replace(/,/g, "")`: everything but the commas, in order. */
  function DropCommas(s: string): (d: string)
    ensures |d| <= |s|
    ensures forall i :: 0 <= i < |d| ==> d[i] != ','
  {
    if s == [] then "" else (if s[0] != ',' then [s[0]] else "") + DropCommas(s[1..])
  }

  lemma {:induction false} DigitsOfAppend(a: string, b: string)
    ensures DigitsOf(a + b) == DigitsOf(a) + DigitsOf(b)
  {
    if a == [] {
      assert a + b == b;
    } else {
      assert (a + b)[1..] == a[1..] + b;
      DigitsOfAppend(a[1..], b);
    }
  }

  lemma {:induction false} DropCommasAppend(a: string, b: string)
    ensures DropCommas(a + b) == DropCommas(a) + DropCommas(b)
  {
    if a == [] {
      assert a + b == b;
    } else {
      assert (a + b)[1..] == a[1..] + b;
      DropCommasAppend(a[1..], b);
    }
  }

  /** A digit string is its own digits, and has no comma to drop. */
  lemma {:induction false} DigitsOfDigits(d: string)
    requires AllDigits(d)
    ensures DigitsOf(d) == d && DropCommas(d) == d
  {
    if d != [] {
      DigitsOfDigits(d[1..]);
    }
  }

  /** Where `/\B(?=(\d{3})+(?!\d))/g` matches in a string of `n` digits: strictly inside
      the string, with a positive multiple of three digits to its right. */
  predicate CommaBefore(n: int, p: int)
  {
    0 < p < n && (n - p) % 3 == 0
  }

  /** The regular-expression replace, scanning the digit string left to right from `i`. */
  function GroupFrom(d: string, i: nat): string
    decreases |d| - i
  {
    if i >= |d| then ""
    else (if CommaBefore(|d|, i) then "," else "") + [d[i]] + GroupFrom(d, i + 1)
  }

  /** Reference grouping: the last three digits form a group, the rest is grouped the same way. */
  function Thousands(d: string): string
    decreases |d|
  {
    if |d| <= 3 then d else Thousands(d[..|d| - 3]) + "," + d[|d| - 3..]
  }

  /** `formatNumber(value)`. */
  function FormatNumber(v: Value): string
  {
    if !Truthy(v) && v != Num(0) then "" else GroupFrom(DigitsOf(ToJsString(v)), 0)
  }

  /** Every comma opens a group of exactly three digits, every run of four characters holds
      a comma (no group is longer than three), and the text does not start with a comma. */
  predicate WellGrouped(r: string)
  {
    && (r != [] ==> r[0] != ',')
    && (forall k :: 0 <= k < |r| && r[k] == ',' ==>
          k + 3 < |r| && IsDigit(r[k + 1]) && IsDigit(r[k + 2]) && IsDigit(r[k + 3])
          && (k + 4 == |r| || r[k + 4] == ','))
    && (forall k :: 0 <= k <= |r| - 4 ==> CommaWithinFour(r, k))
  }

  /** One of the four characters starting at `k` is a comma. */
  predicate CommaWithinFour(r: string, k: int)
    requires 0 <= k <= |r| - 4
  {
    r[k] == ',' || r[k + 1] == ',' || r[k + 2] == ',' || r[k + 3] == ','
  }

  predicate DigitsAndCommas(r: string)
  {
    forall i :: 0 <= i < |r| ==> IsDigit(r[i]) || r[i] == ','
  }

  lemma {:induction false} GroupFromShort(d: string, i: nat)
    requires |d| <= 3 && i <= |d|
    ensures GroupFrom(d, i) == d[i..]
    decreases |d| - i
  {
    if i < |d| {
      GroupFromShort(d, i + 1);
    }
  }

  /** Scanning from position `i` of `d` produces the scan of `d` without its last three
      digits, then a comma, then those three digits. */
  lemma {:induction false} GroupFromSplit(d: string, i: nat)
    requires |d| > 3 && i <= |d| - 3
    ensures GroupFrom(d, i) == GroupFrom(d[..|d| - 3], i) + "," + d[|d| - 3..]
    decreases |d| - i
  {
    var m := |d| - 3;
    var t := d[m..];
    if i == m {
      GroupFromLastThree(d);
    } else {
      var h := d[..m];
      GroupFromSplit(d, i + 1);
      GroupFromStep(d, i);
      GroupFromStep(h, i);
      CommaShift(|d|, i);
      assert h[i] == d[i];
      SplitAssoc(if CommaBefore(m, i) then "," else "", [d[i]], GroupFrom(h, i + 1), t);
    }
  }

  /** One step of the scan. */
  lemma GroupFromStep(d: string, i: nat)
    requires i < |d|
    ensures GroupFrom(d, i) == (if CommaBefore(|d|, i) then "," else "") + [d[i]] + GroupFrom(d, i + 1)
  {
  }

  /** Three more digits to the right leave the comma positions to the left unchanged. */
  lemma CommaShift(n: int, p: int)
    requires 0 <= p < n - 3
    ensures CommaBefore(n, p) == CommaBefore(n - 3, p)
  {
    assert n - p == (n - 3 - p) + 3;
  }

  lemma SplitAssoc(c: string, x: string, g: string, t: string)
    ensures c + x + (g + "," + t) == (c + x + g) + "," + t
  {
  }

  /** The scan of the last three digits of a longer string: a comma, then the digits. */
  lemma GroupFromLastThree(d: string)
    requires |d| > 3
    ensures GroupFrom(d, |d| - 3) == GroupFrom(d[..|d| - 3], |d| - 3) + "," + d[|d| - 3..]
  {
    var h := d[..|d| - 3];
    GroupFromCommaThree(d);
    assert GroupFrom(h, |h|) == "";
    assert "" + "," + d[|d| - 3..] == "," + d[|d| - 3..];
  }

  /** The scan of the last three digits of a longer string: a comma, then the digits. */
  lemma GroupFromCommaThree(d: string)
    requires |d| > 3
    ensures GroupFrom(d, |d| - 3) == "," + d[|d| - 3..]
  {
    var m := |d| - 3;
    CommaAtThree(|d|, m);
    GroupFromCommaStep(d, m);
    GroupFromNoComma(d, m + 1);
    assert d[m..] == [d[m]] + d[m + 1..];
  }

  lemma CommaAtThree(n: int, p: int)
    requires 0 < p && n - p == 3
    ensures CommaBefore(n, p)
  {
  }

  /** A step of the scan at a comma position. */
  lemma GroupFromCommaStep(d: string, i: nat)
    requires i < |d| && CommaBefore(|d|, i)
    ensures GroupFrom(d, i) == "," + [d[i]] + GroupFrom(d, i + 1)
  {
  }

  /** Within the last two digits there is no comma: the scan copies them. */
  lemma {:induction false} GroupFromNoComma(d: string, i: nat)
    requires |d| - 2 <= i <= |d|
    ensures GroupFrom(d, i) == d[i..]
    decreases |d| - i
  {
    if i < |d| {
      assert !CommaBefore(|d|, i) by { assert 0 < |d| - i < 3; }
      GroupFromNoComma(d, i + 1);
      assert d[i..] == [d[i]] + d[i + 1..];
    }
  }

  /** The left-to-right regular-expression scan groups exactly as the reference grouping. */
  lemma {:induction false} GroupFromIsThousands(d: string)
    ensures GroupFrom(d, 0) == Thousands(d)
    decreases |d|
  {
    if |d| <= 3 {
      GroupFromShort(d, 0);
    } else {
      GroupFromSplit(d, 0);
      GroupFromIsThousands(d[..|d| - 3]);
    }
  }

  /** The reference grouping of a digit string holds only digits and commas, is empty only
      for the empty string, and is well grouped. */
  lemma {:induction false} ThousandsShape(d: string)
    requires AllDigits(d)
    ensures DigitsAndCommas(Thousands(d))
    ensures WellGrouped(Thousands(d))
    ensures |Thousands(d)| == 0 <==> |d| == 0
    decreases |d|
  {
    if |d| > 3 {
      var h := d[..|d| - 3];
      var t := d[|d| - 3..];
      ThousandsShape(h);
      assert AllDigits(t);
      WellGroupedAppend(Thousands(h), t);
    }
  }

  /** Dropping the commas from the reference grouping gives back the digit string. */
  lemma {:induction false} ThousandsDigits(d: string)
    requires AllDigits(d)
    ensures DigitsOf(Thousands(d)) == d
    ensures DropCommas(Thousands(d)) == d
    decreases |d|
  {
    if |d| <= 3 {
      DigitsOfDigits(d);
    } else {
      var h := d[..|d| - 3];
      var t := d[|d| - 3..];
      var th := Thousands(h);
      ThousandsDigits(h);
      DigitsOfDigits(t);
      DigitsOfAppend(th + ",", t);
      DigitsOfAppend(th, ",");
      DropCommasAppend(th + ",", t);
      DropCommasAppend(th, ",");
      assert h + t == d;
    }
  }

  /** Appending a comma and a full group of three digits to a well grouped text keeps it well grouped. */
  lemma WellGroupedAppend(th: string, t: string)
    requires WellGrouped(th) && th != [] && DigitsAndCommas(th)
    requires |t| == 3 && AllDigits(t)
    ensures WellGrouped(th + "," + t)
  {
    var r := th + "," + t;
    var n := |th|;
    assert r[n] == ',';
    forall k | 0 <= k < |r| && r[k] == ','
      ensures k + 3 < |r| && IsDigit(r[k + 1]) && IsDigit(r[k + 2]) && IsDigit(r[k + 3])
      ensures k + 4 == |r| || r[k + 4] == ','
    {
      if k < n {
        assert th[k] == ',';
      } else {
        assert k == n;
      }
    }
    forall k | 0 <= k <= |r| - 4 ensures CommaWithinFour(r, k) {
      if k + 4 <= n {
        assert CommaWithinFour(th, k);
      }
    }
  }

  /** What `formatNumber` promises: an empty string for every falsy argument except the
      number 0; otherwise only digits and commas, correctly grouped, whose digits are
      exactly the argument's digits in order. */
  lemma FormatNumberSpec(v: Value)
    ensures !Truthy(v) && v != Num(0) ==> FormatNumber(v) == ""
    ensures DigitsAndCommas(FormatNumber(v))
    ensures WellGrouped(FormatNumber(v))
    ensures Truthy(v) || v == Num(0) ==>
              DropCommas(FormatNumber(v)) == DigitsOf(ToJsString(v))
              && DigitsOf(FormatNumber(v)) == DigitsOf(ToJsString(v))
  {
    if Truthy(v) || v == Num(0) {
      var d := DigitsOf(ToJsString(v));
      GroupFromIsThousands(d);
      ThousandsShape(d);
      ThousandsDigits(d);
    }
  }

  /** Formatting what `formatNumber` returned changes nothing. */
  lemma FormatNumberIdempotent(v: Value)
    ensures FormatNumber(Str(FormatNumber(v))) == FormatNumber(v)
  {
    var r := FormatNumber(v);
    if r != "" {
      FormatNumberSpec(v);
      var d := DigitsOf(ToJsString(v));
      assert DigitsOf(r) == d;
      GroupFromIsThousands(d);
    }
  }

  /** `Number(text)` on a string of decimal digits. */
  function DecimalValue(s: string): (n: nat)
    requires AllDigits(s)
  {
    if s == [] then 0 else DecimalValue(s[..|s| - 1]) * 10 + (s[|s| - 1] as int - '0' as int)
  }

  lemma {:induction false} DecimalValueOfDecimal(n: nat)
    ensures DecimalValue(NatToDecimal(n)) == n
  {
    if n >= 10 {
      DecimalValueOfDecimal(n / 10);
      var s := NatToDecimal(n);
      assert s[..|s| - 1] == NatToDecimal(n / 10);
    }
  }

  /** The comma-stripping parse at the input boxes reads back the magnitude of the
      integer that was formatted: the sign is the only thing lost. */
  lemma FormatParseRoundTrip(n: int)
    ensures AllDigits(DropCommas(FormatNumber(Num(n))))
    ensures DecimalValue(DropCommas(FormatNumber(Num(n)))) == if n < 0 then -n else n
  {
    FormatNumberSpec(Num(n));
    var digits: nat := if n < 0 then -n else n;
    var s := NatToDecimal(digits);
    DigitsOfDigits(s);
    if n < 0 {
      DigitsOfAppend("-", s);
    }
    assert DigitsOf(IntToString(n)) == s;
    DecimalValueOfDecimal(digits);
  }

  /** A negative amount loses its sign and gains a thousands separator. */
  lemma FormatNegativeExample()
    ensures FormatNumber(Num(-1500)) == "1,500"
  {
    MinusFifteenHundredDigits();
    FifteenHundredGrouped();
  }

  /** The digits of `(-1500).toString()`. */
  lemma MinusFifteenHundredDigits()
    ensures DigitsOf(IntToString(-1500)) == "1500"
  {
    var d := "1500";
    MinusFifteenHundred();
    DigitsOfAppend("-", d);
    DigitsOfDigits(d);
    assert DigitsOf("-") == "";
  }

  lemma FifteenHundredGrouped()
    ensures GroupFrom("1500", 0) == "1,500"
  {
    var d := "1500";
    GroupFromIsThousands(d);
    assert d[..1] == "1" && d[1..] == "500";
  }

  lemma MinusFifteenHundred()
    ensures IntToString(-1500) == "-1500"
  {
    DecimalStep(1500);
    DecimalStep(150);
    DecimalStep(15);
    assert NatToDecimal(1) == "1";
  }

  /** One step of the decimal rendering: the leading digits, then the last one. */
  lemma DecimalStep(n: nat)
    requires n >= 10
    ensures NatToDecimal(n) == NatToDecimal(n / 10) + [DigitChar(n % 10)]
  {
  }

  /** A decimal point is dropped like any other non-digit. */
  lemma FormatDecimalPointExample()
    ensures FormatNumber(Str("12.5")) == "125"
  {
    DigitsOfAppend("12", ".5");
    DigitsOfDigits("12");
    assert DigitsOf(".5") == "5";
    assert "12" + ".5" == "12.5";
    GroupFromShort("125", 0);
  }

  /** Zero is rendered although it is falsy; every other falsy argument renders as empty. */
  lemma FormatFalsyExamples()
    ensures FormatNumber(Num(0)) == "0"
    ensures FormatNumber(Str("")) == ""
    ensures FormatNumber(NaN) == "" && FormatNumber(Null) == "" && FormatNumber(Undefined) == ""
  {
    assert IntToString(0) == "0";
    assert DigitsOf("0") == "0";
    GroupFromShort("0", 0);
  }
}
