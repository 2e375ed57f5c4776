/**
 * Field values as they travel through the dashboard page (pages/index.tsx):
 * the text of an input, a number sent by the server or produced by `Number()`,
 * `null`/`undefined`, and the `NaN` that `Number()` yields for text that is not
 * a number. JavaScript truthiness and the `Number()` coercion the page applies
 * to `port` and `sshVerbosity` are defined here.
 */
module Values {

  datatype Value = Str(text: string) | Num(n: int) | Null | NaN

  /** JavaScript truthiness: "", 0, null/undefined and NaN are falsy; "0" is truthy. */
  predicate Truthy(v: Value): (truthy: bool)
    ensures !truthy <==> v in {Str(""), Num(0), Null, NaN}
  {
    match v
    case Str(s) => s != ""
    case Num(n) => n != 0
    case Null => false
    case NaN => false
  }

  predicate IsDigit(c: char) {
    '0' <= c <= '9'
  }

  predicate AllDigits(s: string) {
    forall i :: 0 <= i < |s| ==> IsDigit(s[i])
  }

  /** A non-empty run of decimal digits. */
  predicate IsDecimal(s: string) {
    |s| > 0 && AllDigits(s)
  }

  function DigitValue(c: char): (d: nat)
    requires IsDigit(c)
    ensures d < 10
  {
    c as int - '0' as int
  }

  function DigitChar(d: nat): (c: char)
    requires d < 10
    ensures IsDigit(c) && DigitValue(c) == d
  {
    ('0' as int + d) as char
  }

  /** The number a string of decimal digits denotes (leading zeros allowed). */
  function ParseDigits(s: string): nat
    requires AllDigits(s)
  {
    if s == [] then 0
    else
      var init := s[..|s| - 1];
      assert AllDigits(init);
      ParseDigits(init) * 10 + DigitValue(s[|s| - 1])
  }

  /** The shortest decimal digits of `n`: `String(n)` for a non-negative number. */
  function Digits(n: nat): (s: string)
    ensures IsDecimal(s)
    ensures |s| > 1 ==> s[0] != '0'
  {
    if n < 10 then [DigitChar(n)] else Digits(n / 10) + [DigitChar(n % 10)]
  }

  /** `String(i)` for an integer: an optional minus sign and its digits. */
  function DecimalText(i: int): (s: string)
    ensures |s| > 0
  {
    if i < 0 then "-" + Digits(-i) else Digits(i)
  }

  /**
   * `Number(v)` as the page applies it, only ever to a truthy value: a number
   * is kept, an optionally signed run of decimal digits becomes its integer,
   * and any other text becomes NaN.
   */
  function ToNumber(v: Value): (r: Value)
    requires Truthy(v)
    ensures r.Num? || r.NaN?
    ensures v.Num? ==> r == v
    ensures v.Str? && IsDecimal(v.text) ==> r == Num(ParseDigits(v.text))
    ensures v.Str? && !IsDecimal(v.text) && v.text[0] == '-' && IsDecimal(v.text[1..]) ==>
      r == Num(-(ParseDigits(v.text[1..]) as int))
    ensures r.NaN? <==> v.Str? && !IsDecimal(v.text) && !(v.text[0] == '-' && IsDecimal(v.text[1..]))
  {
    match v
    case Num(_) => v
    case Str(s) =>
      if IsDecimal(s) then Num(ParseDigits(s))
      else if s[0] == '-' && IsDecimal(s[1..]) then Num(-(ParseDigits(s[1..]) as int))
      else NaN
  }

  /** Reading back the digits of `n` gives `n`. */
  lemma {:induction false} ParseDigitsOfDigits(n: nat)
    ensures ParseDigits(Digits(n)) == n
  {
    var s := Digits(n);
    if n < 10 {
      assert s[..|s| - 1] == [];
    } else {
      var init := Digits(n / 10);
      assert s[..|s| - 1] == init;
      ParseDigitsOfDigits(n / 10);
    }
  }

  /** `Number()` of the decimal text `String(i)` gives back the integer `i`. */
  lemma NumberOfDecimalText(i: int)
    ensures Truthy(Str(DecimalText(i)))
    ensures ToNumber(Str(DecimalText(i))) == Num(i)
  {
    var s := DecimalText(i);
    if i < 0 {
      assert s[0] == '-';
      assert !IsDecimal(s);
      assert s[1..] == Digits(-i);
      ParseDigitsOfDigits(-i);
    } else {
      ParseDigitsOfDigits(i);
    }
  }
}
