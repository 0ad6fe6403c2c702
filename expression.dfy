/**
 * The parse both controllers apply to the text-box contents when "Count!" is
 * clicked: split on `+`, require exactly two segments, trim each one and parse
 * it as a `u8`.
 */
module Expression {
  import opened Wrappers
  import opened RustStr

  /** The three ways the parse can end. */
  datatype Parsed = WrongShape | BadNumber | Operands(num1: nat, num2: nat)

  function ParseSum(input: string): (r: Parsed)
    ensures r == WrongShape <==> Occurrences(input, '+') != 1
    ensures r.Operands? ==> r.num1 <= U8_MAX && r.num2 <= U8_MAX
  {
    var parts := Split(input, '+');
    if |parts| != 2 then WrongShape
    else
      match (ParseU8(Trim(parts[0])), ParseU8(Trim(parts[1])))
      case (Some(a), Some(b)) => Operands(a, b)
      case _ => BadNumber
  }

  /** With exactly one `+`, the parse succeeds exactly when both sides trim to
      u8 numerals, and then gives their values; otherwise it is a number error.
      So an empty side, a `-`, a letter, a space inside a number or a value
      above 255 is a number error. */
  lemma ParseSumOfSides(x: string, y: string)
    requires '+' !in x && '+' !in y
    ensures ParseSum(x + "+" + y) ==
      if IsU8Numeral(Trim(x)) && IsU8Numeral(Trim(y))
      then Operands(DigitsValue(Trim(x)), DigitsValue(Trim(y)))
      else BadNumber
  {
    assert x + "+" + y == x + ['+'] + y;
    SplitTwo(x, '+', y);
    TrimKeepsOut(x, '+');
    TrimKeepsOut(y, '+');
    ParseUnsigned(Trim(x));
    ParseUnsigned(Trim(y));
  }

  /** The numeral of `n` with whitespace written before and after it. */
  function Padded(before: string, n: nat, after: string): string {
    before + Decimal(n) + after
  }

  /** Two numerals joined by `+`, with any whitespace around either of them,
      parse to their values when both fit in a u8, and are a number error
      otherwise. */
  lemma ParseSumOfNumerals(w1: string, a: nat, w2: string, w3: string, b: nat, w4: string)
    requires AllWhitespace(w1) && AllWhitespace(w2) && AllWhitespace(w3) && AllWhitespace(w4)
    ensures ParseSum(Padded(w1, a, w2) + "+" + Padded(w3, b, w4)) ==
      if a <= U8_MAX && b <= U8_MAX then Operands(a, b) else BadNumber
  {
    PaddedSide(w1, a, w2);
    PaddedSide(w3, b, w4);
    ParseSumOfSides(Padded(w1, a, w2), Padded(w3, b, w4));
  }

  /** One side of the expression: a padded numeral holds no `+` and trims to the numeral. */
  lemma PaddedSide(w1: string, n: nat, w2: string)
    requires AllWhitespace(w1) && AllWhitespace(w2)
    ensures '+' !in Padded(w1, n, w2)
    ensures Trim(Padded(w1, n, w2)) == Decimal(n)
    ensures IsU8Numeral(Decimal(n)) <==> n <= U8_MAX
    ensures DigitsValue(Decimal(n)) == n
  {
    NumeralPaddedHasNoPlus(w1, n, w2);
    TrimPadded(w1, Decimal(n), w2);
    DecimalValue(n);
  }

  lemma NumeralPaddedHasNoPlus(w1: string, n: nat, w2: string)
    requires AllWhitespace(w1) && AllWhitespace(w2)
    ensures '+' !in Padded(w1, n, w2)
  {
    var s := Padded(w1, n, w2);
    forall i | 0 <= i < |s| ensures s[i] != '+' {
      if i < |w1| {
        assert s[i] == w1[i];
      } else if i < |w1| + |Decimal(n)| {
        assert s[i] == Decimal(n)[i - |w1|];
      } else {
        assert s[i] == w2[i - |w1| - |Decimal(n)|];
      }
    }
  }

  /** The parse of a plain `a+b`. */
  lemma ParseSumPlain(a: nat, b: nat)
    ensures ParseSum(Decimal(a) + "+" + Decimal(b)) ==
      if a <= U8_MAX && b <= U8_MAX then Operands(a, b) else BadNumber
  {
    PlainSide(a);
    PlainSide(b);
    DecimalValue(a);
    DecimalValue(b);
    ParseSumOfSides(Decimal(a), Decimal(b));
  }

  /** A bare numeral holds no `+` and is left alone by trimming. */
  lemma PlainSide(n: nat)
    ensures '+' !in Decimal(n)
    ensures Trim(Decimal(n)) == Decimal(n)
  {
    var d := Decimal(n);
    forall i | 0 <= i < |d| ensures d[i] != '+' && !IsWhitespace(d[i]) {
      assert IsDigit(d[i]);
    }
    TrimPadded([], d, []);
    assert [] + d + [] == d;
  }
}
