/** Numbers as memcached keeps them in values: decimal text, padded with blanks when it is written over a longer one. */
module DecimalText {
  import opened Basics

  type Value = seq<char>

  function Spaces(n: nat): (r: seq<char>)
    ensures |r| == n
  {
    if n == 0 then [] else [' '] + Spaces(n - 1)
  }

  function Decimal(n: nat): (r: seq<char>)
    ensures |r| >= 1
  {
    (if n < 10 then [] else Decimal(n / 10)) + [(('0' as int) + n % 10) as char]
  }

  /** The text that replaces a number of the given text in place. */
  function Padded(text: Value, was: Value): Value
    requires |text| <= |was|
  {
    text + Spaces(|was| - |text|)
  }

  predicate IsDigit(c: char) { '0' <= c <= '9' }

  /** The digits a text begins with. */
  function Digits(t: Value): Value {
    if t == [] || !IsDigit(t[0]) then [] else [t[0]] + Digits(t[1..])
  }

  function NumberOf(digits: Value): int {
    if digits == [] then 0
    else 10 * NumberOf(digits[..|digits| - 1]) + (digits[|digits| - 1] as int - '0' as int)
  }

  /** The number a text begins with; it ends at a blank or with the text. */
  function ReadNumber(t: Value): Option<int> {
    var d := Digits(t);
    if d == [] || (|d| < |t| && t[|d|] != ' ') then None else Some(NumberOf(d))
  }

  ghost predicate AllDigits(t: Value) { forall c <- t :: IsDigit(c) }

  lemma {:induction false} DigitsThen(d: Value, rest: Value)
    requires AllDigits(d) && (rest == [] || !IsDigit(rest[0]))
    ensures Digits(d + rest) == d
    decreases d
  {
    if d == [] {
      assert d + rest == rest;
    } else {
      assert (d + rest)[1..] == d[1..] + rest && d[0] in d;
      DigitsThen(d[1..], rest);
    }
  }

  lemma LastDigit(n: nat, c: char)
    requires c == (('0' as int) + n % 10) as char
    ensures IsDigit(c) && n == 10 * (n / 10) + (c as int - '0' as int)
  {}

  lemma {:induction false} DecimalNumber(n: nat)
    ensures AllDigits(Decimal(n)) && NumberOf(Decimal(n)) == n
  {
    var last := (('0' as int) + n % 10) as char;
    LastDigit(n, last);
    var front := if n < 10 then [] else Decimal(n / 10);
    if n >= 10 { DecimalNumber(n / 10); }
    assert (front + [last])[..|front|] == front && NumberOf(front) == n / 10;
  }

  /** What is written is what is read, with any number of blanks behind it. */
  lemma ReadBack(n: nat, blanks: nat)
    ensures ReadNumber(Decimal(n)) == Some(n) && ReadNumber(Decimal(n) + Spaces(blanks)) == Some(n)
  {
    DecimalNumber(n);
    DigitsThen(Decimal(n), []);
    DigitsThen(Decimal(n), Spaces(blanks));
    assert Decimal(n) + [] == Decimal(n);
  }
}
