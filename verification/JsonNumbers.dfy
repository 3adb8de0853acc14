/** The number check of the tokeniser, and its agreement with the grammar of section 6 of RFC 8259. */
module JsonNumbers {
  import opened Options
  import opened Bytes
  import opened JsonGrammar

  function DigitRun(s: seq<Byte>): (n: nat)
    ensures n <= |s|
  {
    if s == [] || !IsDigit(s[0]) then 0 else 1 + DigitRun(s[1..])
  }

  /** What is left after the integer part, after the fraction, after the exponent; None on a malformed part. */
  function AfterWhole(s: seq<Byte>): (r: Option<seq<Byte>>)
    ensures r.Some? ==> |r.value| < |s|
  {
    if s == [] then None
    else if s[0] == 48 then
      if |s| > 1 && IsDigit(s[1]) then None else Some(s[1..])
    else if IsDigit(s[0]) then Some(s[DigitRun(s)..])
    else None
  }

  function AfterFraction(s: seq<Byte>): Option<seq<Byte>> {
    if s == [] || s[0] != 46 then Some(s)
    else if |s| < 2 || !IsDigit(s[1]) then None
    else Some(s[1..][DigitRun(s[1..])..])
  }

  function ExponentDigits(s: seq<Byte>): seq<Byte>
    requires s != []
  {
    if |s| > 1 && (s[1] == 43 || s[1] == 45) then s[2..] else s[1..]
  }

  function AfterExponent(s: seq<Byte>): Option<seq<Byte>> {
    if s == [] || (s[0] != 101 && s[0] != 69) then Some(s)
    else
      var digits := ExponentDigits(s);
      if digits == [] || !IsDigit(digits[0]) then None
      else Some(digits[DigitRun(digits)..])
  }

  function AfterMinus(s: seq<Byte>): seq<Byte> {
    if s != [] && s[0] == 45 then s[1..] else s
  }

  /** The cursor walks minus, integer part, fraction and exponent and has to end at the end. */
  predicate CheckNumber(s: seq<Byte>) {
    var whole := AfterWhole(AfterMinus(s));
    whole.Some? &&
    var fraction := AfterFraction(whole.value);
    fraction.Some? &&
    AfterExponent(fraction.value) == Some([])
  }

  predicate CheckPrimitive(s: seq<Byte>) {
    IsLiteral(s) || CheckNumber(s)
  }

  // ---- Agreement with the grammar ---------------------------------------------------

  lemma {:induction false} DigitRunDigits(s: seq<Byte>)
    ensures Digits(s[..DigitRun(s)])
    ensures DigitRun(s) < |s| ==> !IsDigit(s[DigitRun(s)])
    ensures s != [] && IsDigit(s[0]) ==> DigitRun(s) > 0
  {
    if s != [] && IsDigit(s[0]) {
      DigitRunDigits(s[1..]);
      var n := DigitRun(s);
      forall i | 0 <= i < n ensures IsDigit(s[i]) {
        assert i > 0 ==> s[..n][i] == s[1..][..n - 1][i - 1];
      }
    }
  }

  /** No digit follows. */
  predicate EndsDigits(rest: seq<Byte>) {
    rest == [] || !IsDigit(rest[0])
  }

  lemma {:induction false} DigitRunOf(digits: seq<Byte>, rest: seq<Byte>)
    requires Digits(digits) && EndsDigits(rest)
    ensures DigitRun(digits + rest) == |digits|
    ensures (digits + rest)[|digits|..] == rest
  {
    if digits == [] {
      assert digits + rest == rest;
    } else {
      assert (digits + rest)[1..] == digits[1..] + rest;
      DigitRunOf(digits[1..], rest);
    }
  }

  function TakeWhole(s: seq<Byte>): seq<Byte>
    requires AfterWhole(s).Some?
  {
    s[..|s| - |AfterWhole(s).value|]
  }

  lemma WholeSound(s: seq<Byte>)
    requires AfterWhole(s).Some?
    ensures var w := TakeWhole(s); w != [] && Digits(w) && (w[0] == 48 ==> |w| == 1) && s == w + AfterWhole(s).value
  {
    DigitRunDigits(s);
  }

  lemma FractionSound(s: seq<Byte>) returns (fraction: seq<Byte>)
    requires AfterFraction(s).Some?
    ensures Digits(fraction) && s == (if fraction == [] then [] else [46] + fraction) + AfterFraction(s).value
  {
    if s == [] || s[0] != 46 {
      fraction := [];
      assert s == [] + s;
    } else {
      DigitRunDigits(s[1..]);
      fraction := s[1..][..DigitRun(s[1..])];
      assert s == [46] + s[1..];
      assert s[1..] == fraction + AfterFraction(s).value;
      assert s == [46] + fraction + AfterFraction(s).value;
    }
  }

  lemma ExponentSound(s: seq<Byte>) returns (marker: Byte, sign: seq<Byte>, exponent: seq<Byte>)
    requires AfterExponent(s) == Some([])
    ensures (marker == 101 || marker == 69) && (sign == [] || sign == [43] || sign == [45]) && Digits(exponent)
    ensures s == if exponent == [] then [] else [marker] + sign + exponent
  {
    marker, sign, exponent := 101, [], [];
    if s != [] {
      marker := s[0];
      exponent := ExponentDigits(s);
      DigitRunDigits(exponent);
      assert exponent == exponent[..DigitRun(exponent)] + exponent[DigitRun(exponent)..];
      if |s| > 1 && (s[1] == 43 || s[1] == 45) {
        sign := [s[1]];
        assert s == [marker] + sign + exponent;
      } else {
        assert s == [marker] + [] + exponent;
      }
    }
  }

  lemma NumberTextFlat(n: Number)
    ensures NumberText(n) == (if n.minus then [45] else []) + (n.whole + (FractionText(n) + ExponentText(n)))
  {
  }

  lemma BodySound(body: seq<Byte>) returns (n: Number)
    requires AfterWhole(body).Some? && AfterFraction(AfterWhole(body).value).Some?
    requires AfterExponent(AfterFraction(AfterWhole(body).value).value) == Some([])
    ensures ValidNumber(n) && !n.minus && body == n.whole + (FractionText(n) + ExponentText(n))
  {
    WholeSound(body);
    var afterWhole := AfterWhole(body).value;
    var fraction := FractionSound(afterWhole);
    var marker, sign, exponent := ExponentSound(AfterFraction(afterWhole).value);
    n := Number(false, TakeWhole(body), fraction, marker, sign, exponent);
  }

  lemma CheckNumberSound(s: seq<Byte>) returns (n: Number)
    requires CheckNumber(s)
    ensures ValidNumber(n) && s == NumberText(n)
  {
    var body := AfterMinus(s);
    var unsigned := BodySound(body);
    n := unsigned.(minus := body != s);
    NumberTextFlat(n);
    assert s == (if n.minus then [45] else []) + body;
  }

  lemma WholeComplete(whole: seq<Byte>, rest: seq<Byte>)
    requires whole != [] && Digits(whole) && (whole[0] == 48 ==> |whole| == 1) && EndsDigits(rest)
    ensures AfterWhole(whole + rest) == Some(rest)
  {
    var s := whole + rest;
    DigitRunOf(whole, rest);
    if whole[0] == 48 {
      assert s[1..] == rest;
      assert |s| > 1 ==> s[1] == rest[0];
    }
  }

  lemma FractionComplete(n: Number, rest: seq<Byte>)
    requires ValidNumber(n) && EndsDigits(rest) && (rest == [] || rest[0] != 46)
    ensures AfterFraction(FractionText(n) + rest) == Some(rest)
  {
    var s := FractionText(n) + rest;
    if n.fraction == [] {
      assert s == rest;
    } else {
      assert s[1..] == n.fraction + rest;
      DigitRunOf(n.fraction, rest);
    }
  }

  lemma ExponentComplete(n: Number)
    requires ValidNumber(n)
    ensures AfterExponent(ExponentText(n)) == Some([])
  {
    var s := ExponentText(n);
    if n.exponent != [] {
      assert s == [n.marker] + (n.sign + n.exponent);
      assert ExponentDigits(s) == n.exponent by {
        if n.sign == [] {
          assert s[1..] == n.exponent;
          assert IsDigit(n.exponent[0]);
        } else {
          assert s[2..] == n.exponent;
        }
      }
      assert n.exponent + [] == n.exponent;
      DigitRunOf(n.exponent, []);
    }
  }

  lemma AfterMinusOf(minus: bool, body: seq<Byte>)
    requires body != [] && body[0] != 45
    ensures AfterMinus((if minus then [45] else []) + body) == body
  {
    var s := (if minus then [45] else []) + body;
    if minus {
      assert s[1..] == body;
    } else {
      assert s == body;
    }
  }

  lemma TailEndsDigits(n: Number)
    requires ValidNumber(n)
    ensures EndsDigits(ExponentText(n)) && EndsDigits(FractionText(n) + ExponentText(n))
  {
    assert n.exponent != [] ==> ExponentText(n)[0] == n.marker;
    if n.fraction == [] {
      assert FractionText(n) + ExponentText(n) == ExponentText(n);
    } else {
      assert (FractionText(n) + ExponentText(n))[0] == 46;
    }
  }

  lemma CheckNumberComplete(n: Number)
    requires ValidNumber(n)
    ensures CheckNumber(NumberText(n))
  {
    var tail := FractionText(n) + ExponentText(n);
    NumberTextFlat(n);
    assert IsDigit(n.whole[0]) && (n.whole + tail)[0] == n.whole[0];
    AfterMinusOf(n.minus, n.whole + tail);
    TailEndsDigits(n);
    WholeComplete(n.whole, tail);
    FractionComplete(n, ExponentText(n));
    ExponentComplete(n);
  }

  /** The check accepts exactly the literals and the numbers of the grammar. */
  lemma CheckPrimitiveExact(s: seq<Byte>)
    ensures CheckPrimitive(s) <==> ValidPrimitive(s)
  {
    if CheckNumber(s) {
      var n := CheckNumberSound(s);
    }
    if exists n: Number :: ValidNumber(n) && s == NumberText(n) {
      var n: Number :| ValidNumber(n) && s == NumberText(n);
      CheckNumberComplete(n);
    }
  }
}
