/** The reader's numbers, blanks, hexadecimal digits and encoded characters against the words of RFC 8259
    and RFC 3629. */
module JsonGrammar {
  import opened Common
  import opened Json

  ghost predicate AllDigits(t: Text) { forall k :: 0 <= k < |t| ==> 48 <= t[k] <= 57 }

  ghost predicate IsExponent(t: Text) {
    t == [] || exists mark: Byte, sign: Text, digits: Text ::
                 t == [mark] + sign + digits && mark in {101, 69} && IsSign(sign)
                 && digits != [] && AllDigits(digits)
  }

  ghost predicate IsSign(t: Text) { t == [] || t == [43] || t == [45] }

  ghost predicate IsFraction(t: Text) { t == [] || (|t| > 1 && t[0] == 46 && AllDigits(t[1..])) }

  /** A sign, an integer without leading zeros, a fraction and an exponent. */
  ghost predicate IsNumber(t: Text, sign: Text, whole: Text, fraction: Text, exponent: Text) {
    && t == sign + (whole + (fraction + exponent)) && (sign == [] || sign == [45])
    && whole != [] && AllDigits(whole) && (whole[0] == 48 ==> |whole| == 1)
    && IsFraction(fraction) && IsExponent(exponent)
  }

  lemma DigitsOf(digits: Text, rest: Text)
    requires AllDigits(digits) && (rest == [] || !IsDigit(rest[0]))
    ensures Digits(digits + rest) == |digits|
  {
    LeadingExact(digits, rest, (c: Byte) => IsDigit(c));
  }

  lemma LeadingAreDigits(t: Text)
    ensures AllDigits(t[..Digits(t)])
  {
    forall k | 0 <= k < Digits(t) ensures 48 <= t[k] <= 57 {
      assert ((c: Byte) => IsDigit(c))(t[k]);
    }
  }

  lemma ExponentIff(t: Text)
    ensures ExponentOk(t) <==> IsExponent(t)
  {
    if ExponentOk(t) && t != [] {
      var signed := |t| > 1 && t[1] in {43, 45};
      var sign, digits := if signed then [t[1]] else [], if signed then t[2..] else t[1..];
      assert t == [t[0]] + sign + digits;
      LeadingAreDigits(digits);
      assert digits[..|digits|] == digits;
      assert IsSign(sign) && AllDigits(digits);
    }
    forall mark: Byte, sign: Text, digits: Text | t == [mark] + sign + digits && mark in {101, 69}
      && IsSign(sign) && digits != [] && AllDigits(digits)
      ensures ExponentOk(t)
    {
      var u := if |t| > 1 && t[1] in {43, 45} then t[2..] else t[1..];
      assert u == digits;
      DigitsOf(digits, []);
      assert digits + [] == digits;
    }
  }

  lemma NotDigit(exponent: Text)
    requires IsExponent(exponent)
    ensures exponent == [] || exponent[0] in {101, 69}
  {
  }

  lemma FractionIff(t: Text)
    ensures FractionOk(t) <==>
              exists fraction, exponent :: t == fraction + exponent && IsFraction(fraction) && IsExponent(exponent)
  {
    hide Digits, IsExponent, ExponentOk;
    if FractionOk(t) {
      var n := if t != [] && t[0] == 46 then 1 + Digits(t[1..]) else 0;
      ExponentIff(t[n..]);
      assert t == t[..n] + t[n..] && t[0..] == t;
      assert IsFraction(t[..n]) by { LeadingDigits(t, n); }
    }
    forall fraction, exponent | t == fraction + exponent && IsFraction(fraction) && IsExponent(exponent)
      ensures FractionOk(t)
    {
      ExponentIff(exponent);
      NotDigit(exponent);
      if fraction != [] {
        DigitsOf(fraction[1..], exponent);
        assert t[1..] == fraction[1..] + exponent && t[|fraction|..] == exponent;
      } else {
        assert t == exponent;
      }
    }
  }

  lemma LeadingDigits(t: Text, n: nat)
    requires n == if t != [] && t[0] == 46 then 1 + Digits(t[1..]) else 0
    requires n != 1
    ensures n <= |t| && IsFraction(t[..n])
  {
    if n > 1 {
      assert forall k :: 0 <= k < n - 1 ==> t[..n][1..][k] == t[1..][k];
    }
  }

  lemma NumberIsInGrammar(t: Text)
    requires NumberOk(t)
    ensures exists sign, whole, fraction, exponent :: IsNumber(t, sign, whole, fraction, exponent)
  {
    hide FractionOk, IsFraction, IsExponent, Digits, AllDigits;
    var signed := t != [] && t[0] == 45;
    var sign, u := if signed then [t[0]] else [], if signed then t[1..] else t;
    FractionIff(u[Digits(u)..]);
    var fraction, exponent :| u[Digits(u)..] == fraction + exponent && IsFraction(fraction) && IsExponent(exponent);
    assert t == sign + u && u == u[..Digits(u)] + u[Digits(u)..];
    LeadingAreDigits(u);
    assert u[..Digits(u)][0] == u[0];
    assert IsNumber(t, sign, u[..Digits(u)], fraction, exponent);
  }

  lemma GrammarIsRead(t: Text, sign: Text, whole: Text, fraction: Text, exponent: Text)
    requires IsNumber(t, sign, whole, fraction, exponent)
    ensures NumberOk(t)
  {
    hide FractionOk, IsFraction, IsExponent, Digits;
    var rest := fraction + exponent;
    FractionIff(rest);
    AfterWhole(fraction, exponent);
    DigitsOf(whole, rest);
    var u := whole + rest;
    assert u[0] == whole[0] && u[|whole|..] == rest;
    if sign == [] {
      assert t == u && t[0] == whole[0];
    } else {
      assert t[0] == 45 && t[1..] == u;
    }
  }

  /** The numbers the reader takes are exactly those of the grammar. */
  lemma NumberIff(t: Text)
    ensures NumberOk(t) <==> exists sign, whole, fraction, exponent :: IsNumber(t, sign, whole, fraction, exponent)
  {
    hide NumberOk, IsNumber;
    if NumberOk(t) { NumberIsInGrammar(t); }
    forall sign, whole, fraction, exponent | IsNumber(t, sign, whole, fraction, exponent) ensures NumberOk(t) {
      GrammarIsRead(t, sign, whole, fraction, exponent);
    }
  }

  lemma AfterWhole(fraction: Text, exponent: Text)
    requires IsFraction(fraction) && IsExponent(exponent)
    ensures fraction + exponent == [] || !IsDigit((fraction + exponent)[0])
  {
    NotDigit(exponent);
  }

  // ---------- Characters ----------

  /** What the bytes of one encoded character stand for (section 3 of RFC 3629), up to three bytes. */
  ghost function Decoded(t: Text): Option<nat> {
    if |t| == 1 && t[0] < 0x80 then Some(t[0])
    else if |t| == 2 && 0xc0 <= t[0] < 0xe0 && 0x80 <= t[1] < 0xc0 then
      Some((t[0] as int - 0xc0) * 64 + (t[1] as int - 0x80))
    else if |t| == 3 && 0xe0 <= t[0] < 0xf0 && 0x80 <= t[1] < 0xc0 && 0x80 <= t[2] < 0xc0 then
      Some(((t[0] as int - 0xe0) * 64 + (t[1] as int - 0x80)) * 64 + (t[2] as int - 0x80))
    else None
  }

  /** An escaped character is stored in its one encoding, the shortest. */
  lemma EncodedDecodes(code: nat)
    requires code < 0x1_0000
    ensures Decoded(Utf8(code)) == Some(code)
    ensures |Utf8(code)| == if code < 0x80 then 1 else if code < 0x800 then 2 else 3
  {
  }

  /** A hexadecimal digit counts by its place, in either case; nothing else is one. */
  lemma HexIff(c: Byte)
    ensures HexValue(c).Some? <==> 48 <= c <= 57 || 97 <= c <= 102 || 65 <= c <= 70
    ensures 48 <= c <= 57 ==> HexValue(c) == Some(c - 48)
    ensures 97 <= c <= 102 ==> HexValue(c) == Some(10 + (c as int - 97)) == HexValue(c - 32)
  {
  }

  /** Blank, tab, line feed and carriage return may stand between tokens (section 2). */
  lemma BlanksAre(c: Byte)
    ensures Space(c) <==> c as char in " \t\n\r"
  {
  }
}
