/**
 * What the number automaton of `Json` accepts, spelled out as section 6 of RFC 8259 does: an optional minus,
 * a whole part without a leading zero, an optional fraction and an optional exponent.
 */
module NumberGrammar {
  import opened Json

  // ---------- The grammar ----------

  predicate AllDigits(s: string) { forall c <- s :: IsDigit(c) }

  /** `int`: a zero, or digits that start with another one. */
  predicate WholePart(s: string) {
    s != "" && AllDigits(s) && (s[0] == '0' ==> |s| == 1)
  }

  /** `[ frac ]` */
  predicate FractionPart(s: string) {
    s != "" ==> s[0] == '.' && |s| > 1 && AllDigits(s[1..])
  }

  /** The digits of an exponent, after its optional sign. */
  function Unsigned(s: string): string {
    if s != "" && (s[0] == '+' || s[0] == '-') then s[1..] else s
  }

  /** `[ exp ]` */
  predicate ExponentPart(s: string) {
    s != "" ==> (s[0] == 'e' || s[0] == 'E') && Unsigned(s[1..]) != "" && AllDigits(Unsigned(s[1..]))
  }

  /** `number = [ minus ] int [ frac ] [ exp ]` */
  predicate Spells(s: string, minus: bool, whole: string, fraction: string, exponent: string) {
    && s == (if minus then "-" else "") + whole + fraction + exponent
    && WholePart(whole) && FractionPart(fraction) && ExponentPart(exponent)
  }

  // ---------- What is left to read in each state ----------

  predicate Accepting(at: NumberPart) { at in {Zero, Whole, Fraction, Power} }

  predicate Accepts(at: NumberPart, s: string) { Accepting(NumberEnd(at, s)) }

  lemma {:induction false} Stuck(s: string)
    ensures !Accepts(Bad, s)
  {
    if s != "" { Stuck(s[1..]); }
  }

  lemma {:induction false} Step(at: NumberPart, s: string)
    requires s != ""
    ensures Accepts(at, s) == Accepts(NumberStep(at, s[0]), s[1..])
    ensures NumberStep(at, s[0]) == Bad ==> !Accepts(at, s)
  {
    Stuck(s[1..]);
  }

  lemma {:induction false} DigitsTail(s: string)
    requires s != ""
    ensures AllDigits(s) <==> IsDigit(s[0]) && AllDigits(s[1..])
  {
    assert s == [s[0]] + s[1..];
  }

  lemma {:induction false} PowerRest(s: string)
    ensures Accepts(Power, s) <==> AllDigits(s)
  {
    if s != "" {
      Step(Power, s);
      DigitsTail(s);
      PowerRest(s[1..]);
    }
  }

  lemma {:induction false} SignRest(s: string)
    ensures Accepts(ExponentSign, s) <==> s != "" && AllDigits(s)
  {
    if s != "" {
      Step(ExponentSign, s);
      DigitsTail(s);
      PowerRest(s[1..]);
    }
  }

  lemma {:induction false} ExponentRest(s: string)
    ensures Accepts(Exponent, s) <==> Unsigned(s) != "" && AllDigits(Unsigned(s))
  {
    if s != "" {
      Step(Exponent, s);
      DigitsTail(s);
      SignRest(s[1..]);
      PowerRest(s[1..]);
    }
  }

  /** The longest prefix of digits, and what follows it. */
  function Digits(s: string): string {
    if s != "" && IsDigit(s[0]) then [s[0]] + Digits(s[1..]) else ""
  }

  function AfterDigits(s: string): string {
    if s != "" && IsDigit(s[0]) then AfterDigits(s[1..]) else s
  }

  lemma {:induction false} DigitsSplit(s: string)
    ensures s == Digits(s) + AfterDigits(s) && AllDigits(Digits(s))
  {
    if s != "" && IsDigit(s[0]) {
      DigitsSplit(s[1..]);
      assert s == [s[0]] + s[1..];
    }
  }

  lemma {:induction false} DigitsOf(d: string, rest: string)
    requires AllDigits(d) && (rest != "" ==> !IsDigit(rest[0]))
    ensures Digits(d + rest) == d && AfterDigits(d + rest) == rest
  {
    if d == "" {
      assert d + rest == rest;
    } else {
      DigitsTail(d);
      assert (d + rest)[1..] == d[1..] + rest;
      DigitsOf(d[1..], rest);
    }
  }

  lemma {:induction false} FractionRest(s: string)
    ensures Accepts(Fraction, s) <==> ExponentPart(AfterDigits(s))
  {
    if s != "" {
      Step(Fraction, s);
      if IsDigit(s[0]) {
        FractionRest(s[1..]);
      } else {
        ExponentRest(s[1..]);
      }
    }
  }

  /** `[ frac ] [ exp ]`, read from the left. */
  predicate Tail(s: string) {
    if s != "" && s[0] == '.' then Digits(s[1..]) != "" && ExponentPart(AfterDigits(s[1..])) else ExponentPart(s)
  }

  lemma {:induction false} PointRest(s: string)
    ensures Accepts(Point, s) <==> Digits(s) != "" && ExponentPart(AfterDigits(s))
  {
    if s != "" {
      Step(Point, s);
      FractionRest(s[1..]);
    }
  }

  lemma {:induction false} ZeroRest(s: string)
    ensures Accepts(Zero, s) <==> Tail(s)
  {
    if s != "" {
      Step(Zero, s);
      PointRest(s[1..]);
      ExponentRest(s[1..]);
    }
  }

  lemma {:induction false} WholeRest(s: string)
    ensures Accepts(Whole, s) <==> Tail(AfterDigits(s))
  {
    if s != "" {
      Step(Whole, s);
      if IsDigit(s[0]) {
        WholeRest(s[1..]);
      } else {
        PointRest(s[1..]);
        ExponentRest(s[1..]);
      }
    }
  }

  /** What may follow an optional minus. */
  predicate Magnitude(s: string) {
    s != "" && IsDigit(s[0]) && if s[0] == '0' then Tail(s[1..]) else Tail(AfterDigits(s))
  }

  lemma {:induction false} MinusRest(s: string)
    ensures Accepts(Minus, s) <==> Magnitude(s)
  {
    if s != "" {
      Step(Minus, s);
      ZeroRest(s[1..]);
      WholeRest(s[1..]);
    }
  }

  lemma {:induction false} StartRest(s: string)
    ensures Accepts(Start, s) <==> Magnitude(if s != "" && s[0] == '-' then s[1..] else s)
  {
    if s != "" {
      Step(Start, s);
      MinusRest(s[1..]);
      ZeroRest(s[1..]);
      WholeRest(s[1..]);
    }
  }

  // ---------- The automaton and the grammar agree ----------

  lemma {:induction false} TailSplit(s: string) returns (fraction: string, exponent: string)
    requires Tail(s)
    ensures s == fraction + exponent && FractionPart(fraction) && ExponentPart(exponent)
  {
    if s != "" && s[0] == '.' {
      DigitsSplit(s[1..]);
      fraction, exponent := ['.'] + Digits(s[1..]), AfterDigits(s[1..]);
      assert fraction[1..] == Digits(s[1..]) && s == ['.'] + s[1..];
    } else {
      fraction, exponent := "", s;
      assert s == "" + s;
    }
  }

  lemma {:induction false} TailOf(fraction: string, exponent: string)
    requires FractionPart(fraction) && ExponentPart(exponent)
    ensures Tail(fraction + exponent)
    ensures var s := fraction + exponent; s != "" ==> !IsDigit(s[0])
  {
    if fraction == "" {
      assert fraction + exponent == exponent;
    } else {
      assert (fraction + exponent)[1..] == fraction[1..] + exponent;
      DigitsOf(fraction[1..], exponent);
    }
  }

  lemma {:induction false} MagnitudeSplit(s: string) returns (whole: string, fraction: string, exponent: string)
    requires Magnitude(s)
    ensures s == whole + fraction + exponent
    ensures WholePart(whole) && FractionPart(fraction) && ExponentPart(exponent)
  {
    if s[0] == '0' {
      fraction, exponent := TailSplit(s[1..]);
      whole := s[..1];
    } else {
      DigitsSplit(s);
      fraction, exponent := TailSplit(AfterDigits(s));
      whole := Digits(s);
    }
    assert s == whole + (fraction + exponent);
  }

  lemma {:induction false} MagnitudeOf(whole: string, fraction: string, exponent: string)
    requires WholePart(whole) && FractionPart(fraction) && ExponentPart(exponent)
    ensures Magnitude(whole + fraction + exponent)
  {
    var rest := fraction + exponent;
    TailOf(fraction, exponent);
    DigitsOf(whole, rest);
    assert whole + fraction + exponent == whole + rest;
    assert |whole| == 1 ==> (whole + rest)[1..] == rest;
  }

  lemma {:induction false} SpelledIsAccepted(s: string, minus: bool, whole: string, fraction: string, exponent: string)
    requires Spells(s, minus, whole, fraction, exponent)
    ensures Accepts(Start, s)
  {
    var magnitude := whole + fraction + exponent;
    MagnitudeOf(whole, fraction, exponent);
    assert s == (if minus then "-" else "") + magnitude;
    StartRest(s);
    assert minus ==> s[1..] == magnitude;
    assert !minus ==> s == magnitude;
  }

  lemma {:induction false} SpelledCharacters(s: string, minus: bool, whole: string, fraction: string, exponent: string)
    requires Spells(s, minus, whole, fraction, exponent)
    ensures s != "" && (s[0] == '-' || IsDigit(s[0])) && forall c <- s :: IsNumberChar(c)
  {
    assert s[0] == if minus then '-' else whole[0];
    forall c | c in fraction ensures IsNumberChar(c) {
      assert fraction == [fraction[0]] + fraction[1..];
    }
    ExponentCharacters(exponent);
  }

  lemma {:induction false} ExponentCharacters(exponent: string)
    requires ExponentPart(exponent)
    ensures forall c <- exponent :: IsNumberChar(c)
  {
    if exponent != "" {
      var unsigned := Unsigned(exponent[1..]);
      assert exponent == [exponent[0]] + exponent[1..];
      assert exponent[1..] == unsigned || exponent[1..] == [exponent[1]] + unsigned;
    }
  }

  lemma {:induction false} AcceptedIsSpelled(s: string)
    returns (minus: bool, whole: string, fraction: string, exponent: string)
    requires IsNumber(s)
    ensures Spells(s, minus, whole, fraction, exponent)
  {
    StartRest(s);
    assert Accepts(Start, s);
    minus := s[0] == '-';
    var magnitude := if minus then s[1..] else s;
    whole, fraction, exponent := MagnitudeSplit(magnitude);
    assert s == (if minus then "-" else "") + magnitude;
    var sign := if minus then "-" else "";
    Regroup(sign, whole, fraction, exponent);
  }

  lemma {:induction false} Regroup(sign: string, whole: string, fraction: string, exponent: string)
    ensures sign + (whole + fraction + exponent) == sign + whole + fraction + exponent
  {
  }

  /** The number literals the model admits are exactly those of the grammar. */
  lemma {:induction false} NumbersAreSpelled(s: string)
    ensures IsNumber(s) <==> exists minus, whole, fraction, exponent :: Spells(s, minus, whole, fraction, exponent)
  {
    if IsNumber(s) {
      var minus, whole, fraction, exponent := AcceptedIsSpelled(s);
    }
    forall minus, whole, fraction, exponent | Spells(s, minus, whole, fraction, exponent) ensures IsNumber(s) {
      SpelledIsAccepted(s, minus, whole, fraction, exponent);
      SpelledCharacters(s, minus, whole, fraction, exponent);
    }
  }
}
