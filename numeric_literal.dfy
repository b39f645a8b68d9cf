/**
 * JavaScript's `Number(s)` on a string yields NaN exactly when `s` is not a
 * StringNumericLiteral (ECMA-262, section 7.1.4.1.1, "StringToNumber"). This
 * module recognises that grammar:
 *
 *   StringNumericLiteral   ::= StrWhiteSpace? | StrWhiteSpace? StrNumericLiteral StrWhiteSpace?
 *   StrNumericLiteral      ::= StrDecimalLiteral | NonDecimalIntegerLiteral
 *   StrDecimalLiteral      ::= StrUnsignedDecimalLiteral | (+|-) StrUnsignedDecimalLiteral
 *   StrUnsignedDecimalLiteral ::= Infinity
 *                            | DecimalDigits . DecimalDigits? ExponentPart?
 *                            | . DecimalDigits ExponentPart?
 *                            | DecimalDigits ExponentPart?
 *   ExponentPart           ::= (e|E) (+|-)? DecimalDigits
 *   NonDecimalIntegerLiteral ::= 0(b|B) BinaryDigits | 0(o|O) OctalDigits | 0(x|X) HexDigits
 *
 * (numeric separators are not allowed in this grammar).
 */
module NumericLiteral {
  import opened Text

  predicate IsExponentIndicator(c: char) { c == 'e' || c == 'E' }

  predicate IsSign(c: char) { c == '+' || c == '-' }

  predicate IsBinaryDigit(c: char) { c == '0' || c == '1' }

  predicate IsOctalDigit(c: char) { '0' <= c <= '7' }

  predicate IsHexDigit(c: char) { IsDigit(c) || 'a' <= c <= 'f' || 'A' <= c <= 'F' }

  predicate DecimalDigits(s: string) { AllDigits(s) }

  predicate SignedInteger(s: string)
  {
    DecimalDigits(s) || (|s| > 0 && IsSign(s[0]) && DecimalDigits(s[1..]))
  }

  /** The part of a StrUnsignedDecimalLiteral before its ExponentPart. */
  predicate Mantissa(m: string)
  {
    var d := FirstIndex(m, IsDot);
    if d == |m| then DecimalDigits(m)
    else
      var whole, fraction := m[..d], m[d + 1..];
      || (DecimalDigits(whole) && (fraction == [] || DecimalDigits(fraction)))
      || (whole == [] && DecimalDigits(fraction))
  }

  predicate StrUnsignedDecimalLiteral(s: string)
  {
    || s == "Infinity"
    || (var e := FirstIndex(s, IsExponentIndicator);
        Mantissa(s[..e]) && (e == |s| || SignedInteger(s[e + 1..])))
  }

  predicate StrDecimalLiteral(s: string)
  {
    || StrUnsignedDecimalLiteral(s)
    || (|s| > 0 && IsSign(s[0]) && StrUnsignedDecimalLiteral(s[1..]))
  }

  predicate NonDecimalIntegerLiteral(s: string)
  {
    && |s| > 2 && s[0] == '0'
    && (|| ((s[1] == 'b' || s[1] == 'B') && All(s[2..], IsBinaryDigit))
        || ((s[1] == 'o' || s[1] == 'O') && All(s[2..], IsOctalDigit))
        || ((s[1] == 'x' || s[1] == 'X') && All(s[2..], IsHexDigit)))
  }

  predicate StrNumericLiteral(s: string)
  {
    StrDecimalLiteral(s) || NonDecimalIntegerLiteral(s)
  }

  /**
   * `s` is a StringNumericLiteral. A StrNumericLiteral neither starts nor ends
   * with white space, so the optional StrWhiteSpace around it is what `trim`
   * removes; a string of white space only converts to 0.
   */
  predicate StringNumericLiteral(s: string)
  {
    var t := Trim(s);
    t == [] || StrNumericLiteral(t)
  }

  /** `isNaN(Number(s))`. */
  predicate IsNaNNumber(s: string)
  {
    !StringNumericLiteral(s)
  }

  /** A run of digits, possibly surrounded by white space, is a number. */
  lemma DigitsAreNumeric(s: string)
    requires AllDigits(Trim(s))
    ensures !IsNaNNumber(s)
  {
    var t := Trim(s);
    assert FirstIndex(t, IsExponentIndicator) == |t| by {
      forall j | 0 <= j < |t| ensures !IsExponentIndicator(t[j]) {
        assert IsDigit(t[j]);
      }
    }
    assert FirstIndex(t, IsDot) == |t| by {
      forall j | 0 <= j < |t| ensures !IsDot(t[j]) {
        assert IsDigit(t[j]);
      }
    }
  }

  /**
   * A string whose trimmed form starts with a letter is a number only when it
   * is "Infinity": ordinary words are NaN.
   */
  lemma WordsAreNotNumeric(s: string)
    requires Trim(s) != [] && IsLetter(Trim(s)[0]) && Trim(s) != "Infinity"
    ensures IsNaNNumber(s)
  {
    LetterStartIsNotUnsigned(Trim(s));
  }

  lemma LetterStartIsNotUnsigned(t: string)
    requires t != [] && IsLetter(t[0]) && t != "Infinity"
    ensures !StrUnsignedDecimalLiteral(t)
  {
    var e := FirstIndex(t, IsExponentIndicator);
    var m := t[..e];
    assert e > 0 ==> m[0] == t[0];
    var d := FirstIndex(m, IsDot);
    assert d > 0 ==> m[..d][0] == t[0];
  }
}
