/** String building blocks that every generation's formatter uses. */
module Text {

  /**
   * `addSpacer(_:to:)` / `addSeparater(_:prefix:)` / `addBlankBefore(_:prefix:)`: the spacer is put
   * in front of the string only when the string is non-empty, so an empty string contributes nothing.
   */
  function AddSpacer(spacer: string, s: string): (r: string)
    ensures s == [] ==> r == []
    ensures s != [] ==> r == spacer + s
    ensures |r| == if s == [] then 0 else |spacer| + |s|
  {
    if !(s != []) then "" else spacer + s
  }

  /** `String(repeating: " ", count: n)` guarded by `n > 0`: the indentation of a nested call. */
  function Spaces(count: int): (r: string)
    ensures |r| == if count > 0 then count else 0
    ensures forall i :: 0 <= i < |r| ==> r[i] == ' '
    decreases count
  {
    if count <= 0 then "" else " " + Spaces(count - 1)
  }

  function DigitChar(d: nat): (c: char)
    requires d < 10
    ensures '0' <= c <= '9'
    ensures c as int - '0' as int == d
  {
    "0123456789"[d]
  }

  /** Every character is a decimal digit. */
  predicate IsDecimal(s: string)
  {
    forall k :: 0 <= k < |s| ==> '0' <= s[k] <= '9'
  }

  /** Decimal digits of a natural number, most significant first. */
  function Digits(n: nat): (r: string)
    ensures r != []
    ensures IsDecimal(r)
    decreases n
  {
    if n < 10 then [DigitChar(n)] else Digits(n / 10) + [DigitChar(n % 10)]
  }

  /** Every character is a minus sign or a decimal digit. */
  predicate IsNumeral(s: string)
  {
    forall k :: 0 <= k < |s| ==> s[k] == '-' || '0' <= s[k] <= '9'
  }

  /** `"\(line)"` for a Swift `Int`: an optional minus sign followed by decimal digits. */
  function IntText(i: int): (r: string)
    ensures r != []
    ensures IsNumeral(r)
    ensures i >= 0 ==> r[0] != '-'
  {
    if i < 0 then "-" + Digits(-i) else Digits(i)
  }

  /** The number a string of decimal digits denotes, most significant digit first ("" denotes 0). */
  function DecimalValue(s: string): nat
    requires IsDecimal(s)
    decreases |s|
  {
    if s == [] then 0 else DecimalValue(s[..|s| - 1]) * 10 + (s[|s| - 1] as int - '0' as int)
  }

  /** Digits, or a minus sign followed by digits. */
  predicate IsSignedDecimal(s: string)
  {
    IsDecimal(s) || (|s| > 0 && s[0] == '-' && IsDecimal(s[1..]))
  }

  /** The integer a signed decimal numeral denotes. */
  function IntValue(s: string): int
    requires IsSignedDecimal(s)
  {
    if |s| > 0 && s[0] == '-' then -(DecimalValue(s[1..]) as int) else DecimalValue(s)
  }

  /** Reading back the digits of a number gives the number. */
  lemma {:induction false} DigitsValue(n: nat)
    ensures DecimalValue(Digits(n)) == n
    decreases n
  {
    if n >= 10 {
      DigitsValue(n / 10);
      var s := Digits(n);
      assert s[..|s| - 1] == Digits(n / 10);
    }
  }

  /** A minus sign in front of a digit string negates its value. */
  lemma NegatedValue(d: string)
    requires IsDecimal(d)
    ensures IsSignedDecimal("-" + d) && IntValue("-" + d) == -(DecimalValue(d) as int)
  {
    var r := "-" + d;
    assert r[0] == '-';
    assert r[1..] == d;
  }

  /** Reading back the interpolated text of an `Int` gives the `Int`. */
  lemma IntTextValue(i: int)
    ensures IsSignedDecimal(IntText(i))
    ensures IntValue(IntText(i)) == i
  {
    if i < 0 {
      DigitsValue(-i);
      NegatedValue(Digits(-i));
    } else {
      DigitsValue(i);
    }
  }

  /** A string is a prefix of itself followed by anything. */
  lemma PrefixOfAppend(a: string, b: string)
    ensures a <= a + b
  {
    assert (a + b)[..|a|] == a;
  }
}
