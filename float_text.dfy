/**
 * What Python's `float` makes of text, as the scan in `Common.ParseFloat`
 * models it: the literals it accepts and their values, the text it
 * rejects, and the whitespace it ignores.
 */
module FloatText {
  import opened Common

  /** Dividing ten `n` times is dividing by the `n`-th power of ten. */
  lemma {:induction false} ShrinkIsDivision(x: real, n: nat)
    ensures Shrink(x, n) == x / Pow10(n) as real
  {
    if n > 0 {
      ShrinkIsDivision(x, n - 1);
      assert Pow10(n) as real == 10.0 * Pow10(n - 1) as real;
    }
  }

  /** Scaling by a positive exponent multiplies by that power of ten. */
  lemma {:induction false} ScaleUp(a: nat, n: nat)
    ensures Scale(a as real, n) == (a * Pow10(n)) as real
  {
    if n > 0 {
      ScaleUp(a, n - 1);
      var q := a * Pow10(n - 1);
      assert a * Pow10(n) == 10 * q;
      assert Scale(a as real, n) == 10.0 * (q as real);
    }
  }

  /** Scaling by a negative exponent divides by that power of ten. */
  lemma {:induction false} ScaleDown(x: real, n: nat)
    ensures Scale(x, -(n as int)) == x / Pow10(n) as real
  {
    if n > 0 {
      var e: int := -(n as int);
      assert e + 1 == -((n - 1) as int);
      ScaleDown(x, n - 1);
      ShrinkIsDivision(x, n);
      ShrinkIsDivision(x, n - 1);
    }
  }

  lemma {:induction false} ShrinkAdds(x: real, y: real, n: nat)
    ensures Shrink(x + y, n) == Shrink(x, n) + Shrink(y, n)
  {
    if n > 0 {
      ShrinkAdds(x, y, n - 1);
    }
  }

  lemma {:induction false} ShrinkShifted(a: nat, n: nat)
    ensures Shrink((a * Pow10(n)) as real, n) == a as real
  {
    ShrinkIsDivision((a * Pow10(n)) as real, n);
    assert (a * Pow10(n)) as real == a as real * Pow10(n) as real;
  }

  /** Scanning a concatenation scans the first part, then the second from where it stopped. */
  lemma {:induction false} RunAppend(a: string, b: string, st: Scan)
    ensures Run(a + b, st) == (match Run(a, st) case None => None case Some(m) => Run(b, m))
    decreases |a|
  {
    if a == [] {
      assert a + b == b;
    } else {
      assert (a + b)[0] == a[0] && (a + b)[1..] == a[1..] + b;
      match Step(st, a[0])
      case None =>
      case Some(next) => RunAppend(a[1..], b, next);
    }
  }

  lemma {:induction false} RunOne(c: char, st: Scan)
    ensures Run([c], st) == Step(st, c)
  {
    assert [c][1..] == [];
  }

  /** Splitting off the last character of a nonempty string. */
  lemma {:induction false} Snoc(s: string) returns (init: string, c: char)
    requires s != []
    ensures s == init + [c] && init == s[..|s| - 1] && c == s[|s| - 1]
  {
    init, c := s[..|s| - 1], s[|s| - 1];
    assert s == init + [c];
  }

  /** One more digit after `init`: the shifted value of `init + [c]`, ten times the power for `init`. */
  lemma {:induction false} ShiftDigit(a: nat, init: string, c: char)
    requires IsDigit(c)
    ensures 10 * (a * Pow10(|init|) + DigitsValue(init)) + DigitOf(c) == a * Pow10(|init + [c]|) + DigitsValue(init + [c])
  {
    assert (init + [c])[..|init|] == init;
    assert Pow10(|init + [c]|) == 10 * Pow10(|init|);
    assert a * (10 * Pow10(|init|)) == 10 * (a * Pow10(|init|));
  }

  /** The last character of a digit string, and its value. */
  lemma {:induction false} LastDigit(ds: string) returns (init: string, c: char)
    requires ds != [] && AllDigits(ds)
    ensures ds == init + [c] && AllDigits(init) && IsDigit(c)
    ensures init == [] ==> DigitsValue(ds) == DigitOf(c)
  {
    init, c := Snoc(ds);
    assert IsDigit(ds[|ds| - 1]);
  }

  /** Whole-number digits accumulate into the mantissa; a first digit opens the whole part. */
  lemma {:induction false} WholeRun(ds: string, st: Scan)
    requires AllDigits(ds)
    requires st.stage == Whole || (ds != [] && (st.stage == Lead || st.stage == Signed))
    ensures Run(ds, st) == Some(Scan(Whole, st.number.(digits := st.number.digits * Pow10(|ds|) + DigitsValue(ds))))
    decreases |ds|
  {
    var n := st.number;
    if ds == [] {
      assert Pow10(|ds|) == 1 && DigitsValue(ds) == 0;
      assert n.(digits := n.digits) == n;
    } else {
      var init, c := LastDigit(ds);
      RunAppend(init, [c], st);
      if init == [] {
        RunOne(c, st);
      } else {
        WholeRun(init, st);
        RunOne(c, Scan(Whole, n.(digits := n.digits * Pow10(|init|) + DigitsValue(init))));
        ShiftDigit(n.digits, init, c);
      }
    }
  }

  /** Digits after the point accumulate into the mantissa and count towards its scale. */
  lemma {:induction false} FractionRun(ds: string, st: Scan)
    requires AllDigits(ds)
    requires st.stage == Fraction || (ds != [] && st.stage == Dot)
    ensures Run(ds, st) == Some(Scan(Fraction, st.number.(digits := st.number.digits * Pow10(|ds|) + DigitsValue(ds), scale := st.number.scale + |ds|)))
    decreases |ds|
  {
    var n := st.number;
    if ds == [] {
      assert Pow10(|ds|) == 1 && DigitsValue(ds) == 0;
      assert n.(digits := n.digits, scale := n.scale) == n;
    } else {
      var init, c := LastDigit(ds);
      RunAppend(init, [c], st);
      if init == [] {
        RunOne(c, st);
      } else {
        FractionRun(init, st);
        RunOne(c, Scan(Fraction, n.(digits := n.digits * Pow10(|init|) + DigitsValue(init), scale := n.scale + |init|)));
        ShiftDigit(n.digits, init, c);
      }
    }
  }

  /** Exponent digits accumulate into the exponent. */
  lemma {:induction false} ExponentRun(ds: string, st: Scan)
    requires AllDigits(ds)
    requires st.stage == Exponent || (ds != [] && (st.stage == Mark || st.stage == MarkSigned))
    ensures Run(ds, st) == Some(Scan(Exponent, st.number.(exponent := st.number.exponent * Pow10(|ds|) + DigitsValue(ds))))
    decreases |ds|
  {
    var n := st.number;
    if ds == [] {
      assert Pow10(|ds|) == 1 && DigitsValue(ds) == 0;
      assert n.(exponent := n.exponent) == n;
    } else {
      var init, c := LastDigit(ds);
      RunAppend(init, [c], st);
      if init == [] {
        RunOne(c, st);
      } else {
        ExponentRun(init, st);
        RunOne(c, Scan(Exponent, n.(exponent := n.exponent * Pow10(|init|) + DigitsValue(init))));
        ShiftDigit(n.exponent, init, c);
      }
    }
  }

  /** The scan of a digit string from the start: a whole number with those digits. */
  lemma {:induction false} DigitsScan(d: string)
    requires d != [] && AllDigits(d)
    ensures Run(d, Start) == Some(Scan(Whole, Zero.(digits := DigitsValue(d))))
  {
    WholeRun(d, Start);
  }

  /** `float` of decimal digits is their value, and with a minus sign in front its negation. */
  lemma {:induction false} IntegerText(d: string)
    requires d != [] && AllDigits(d)
    ensures ParseFloat(d) == Some(DigitsValue(d) as real)
    ensures ParseFloat("-" + d) == Some(-(DigitsValue(d) as real))
  {
    var v := DigitsValue(d);
    var pos, neg := Zero.(digits := v), Zero.(negative := true, digits := v);
    DigitsScan(d);
    assert NumberValue(pos) == v as real by {
      assert Shrink(v as real, 0) == v as real && Scale(v as real, 0) == v as real;
    }
    RunAppend("-", d, Start);
    RunOne('-', Start);
    WholeRun(d, Scan(Signed, Zero.(negative := true)));
    assert Run("-" + d, Start) == Some(Scan(Whole, neg));
    assert NumberValue(neg) == -(v as real) by {
      assert Shrink(v as real, 0) == v as real && Scale(v as real, 0) == v as real;
    }
  }

  /** The value of an unsigned number of `a`, a point and the digits `b`. */
  lemma {:induction false} PlainFraction(n: Number, a: nat, b: string)
    requires n == Zero.(digits := a * Pow10(|b|) + DigitsValue(b), scale := |b|)
    ensures NumberValue(n) == a as real + FractionValue(b)
  {
    var p := (a * Pow10(|b|)) as real;
    assert n.digits as real == p + DigitsValue(b) as real;
    ShrinkAdds(p, DigitsValue(b) as real, |b|);
    ShrinkShifted(a, |b|);
  }

  /** The scan of digits and a point: a fraction when there were digits, a bare point otherwise. */
  lemma {:induction false} PointScan(a: string) returns (dot: Scan)
    requires AllDigits(a)
    ensures Run(a + ".", Start) == Some(dot)
    ensures dot == Scan(if a == [] then Dot else Fraction, Zero.(digits := DigitsValue(a)))
  {
    RunAppend(a, ".", Start);
    if a == [] {
      assert a + "." == ".";
      RunOne('.', Start);
      dot := Scan(Dot, Zero);
    } else {
      DigitsScan(a);
      RunOne('.', Scan(Whole, Zero.(digits := DigitsValue(a))));
      dot := Scan(Fraction, Zero.(digits := DigitsValue(a)));
    }
  }

  /** The scan of digits, a point and digits: a fraction holding all the digits. */
  lemma {:induction false} DecimalScan(a: string, b: string) returns (n: Number)
    requires AllDigits(a) && AllDigits(b) && |a| + |b| > 0
    ensures n == Zero.(digits := DigitsValue(a) * Pow10(|b|) + DigitsValue(b), scale := |b|)
    ensures Run(a + "." + b, Start) == Some(Scan(Fraction, n))
  {
    var dot := PointScan(a);
    RunAppend(a + ".", b, Start);
    FractionRun(b, dot);
    n := Zero.(digits := DigitsValue(a) * Pow10(|b|) + DigitsValue(b), scale := |b|);
  }

  /** `float(a + "." + b)` is the decimal number those digits spell, as long as there is one digit at all. */
  lemma {:induction false} DecimalText(a: string, b: string)
    requires AllDigits(a) && AllDigits(b) && |a| + |b| > 0
    ensures ParseFloat(a + "." + b) == Some(DigitsValue(a) as real + FractionValue(b))
  {
    var n := DecimalScan(a, b);
    PlainFraction(n, DigitsValue(a), b);
  }

  /** The scan of digits, `e` and possibly a minus sign: the place where the exponent digits start. */
  lemma {:induction false} MarkScan(d: string, m: string) returns (mark: Scan)
    requires d != [] && AllDigits(d) && (m == "e" || m == "e-")
    ensures Run(d + m, Start) == Some(mark)
    ensures mark == Scan(if m == "e" then Mark else MarkSigned, Zero.(digits := DigitsValue(d), expNegative := m == "e-"))
  {
    var whole := Scan(Whole, Zero.(digits := DigitsValue(d)));
    DigitsScan(d);
    RunAppend(d, m, Start);
    RunAppend("e", m[1..], whole);
    assert m == "e" + m[1..];
    RunOne('e', whole);
    if m == "e-" {
      assert m[1..] == "-";
      RunOne('-', Scan(Mark, whole.number));
      mark := Scan(MarkSigned, whole.number.(expNegative := true));
    } else {
      assert m[1..] == [];
      mark := Scan(Mark, whole.number);
    }
  }

  /** The scan of a mantissa in digits, `e`, perhaps a minus sign, and exponent digits. */
  lemma {:induction false} ExponentScan(d: string, m: string, k: string) returns (n: Number)
    requires d != [] && AllDigits(d) && k != [] && AllDigits(k) && (m == "e" || m == "e-")
    ensures n == Zero.(digits := DigitsValue(d), expNegative := m == "e-", exponent := DigitsValue(k))
    ensures Run(d + m + k, Start) == Some(Scan(Exponent, n))
  {
    var mark := MarkScan(d, m);
    RunAppend(d + m, k, Start);
    ExponentRun(k, mark);
    n := mark.number.(exponent := DigitsValue(k));
  }

  /**
   * `float(d + "e" + k)` and `float(d + "e-" + k)` scale the digits of d up
   * or down by k powers of ten; ScaleUp and ScaleDown give that product and
   * quotient.
   */
  lemma {:induction false} ExponentText(d: string, m: string, k: string)
    requires d != [] && AllDigits(d) && k != [] && AllDigits(k) && (m == "e" || m == "e-")
    ensures m == "e" ==> ParseFloat(d + m + k) == Some(Scale(DigitsValue(d) as real, DigitsValue(k)))
    ensures m == "e-" ==> ParseFloat(d + m + k) == Some(Scale(DigitsValue(d) as real, -(DigitsValue(k) as int)))
  {
    var n := ExponentScan(d, m, k);
    var x := DigitsValue(d) as real;
    var e: int := if m == "e-" then -(DigitsValue(k) as int) else DigitsValue(k);
    assert Shrink(n.digits as real, n.scale) == x;
    assert NumberValue(n) == Scale(x, e);
    assert Complete(Exponent);
    assert ParseFloat(d + m + k) == Some(Scale(x, e));
  }

  /** Whitespace inside a number is not ignored: `float("1 2")` raises ValueError. */
  lemma {:induction false} InnerSpaceRejected(a: string, c: char, b: string)
    requires a != [] && AllDigits(a) && IsSpace(c) && b != [] && AllDigits(b)
    ensures ParseFloat(a + [c] + b) == None
  {
    var whole := Scan(Whole, Zero.(digits := DigitsValue(a)));
    DigitsScan(a);
    RunAppend(a, [c], Start);
    RunOne(c, whole);
    RunAppend(a + [c], b, Start);
    assert b == [b[0]] + b[1..];
    RunAppend([b[0]], b[1..], Scan(Trail, whole.number));
    RunOne(b[0], Scan(Trail, whole.number));
  }

  /** The decimal digits of a natural number, without leading zeros. */
  function NatText(n: nat): (s: string)
    ensures s != [] && AllDigits(s)
  {
    var d := ['0' + (n % 10) as char];
    if n < 10 then d else NatText(n / 10) + d
  }

  lemma {:induction false} NatTextValue(n: nat)
    ensures DigitsValue(NatText(n)) == n
  {
    var s := NatText(n);
    assert DigitOf(s[|s| - 1]) == n % 10;
    if n >= 10 {
      NatTextValue(n / 10);
      assert s[..|s| - 1] == NatText(n / 10);
    }
  }

  /** `float(str(n))` is n. */
  lemma {:induction false} NatTextRoundTrip(n: nat)
    ensures ParseFloat(NatText(n)) == Some(n as real)
  {
    NatTextValue(n);
    IntegerText(NatText(n));
  }

  /** A trailing blank completes a whole literal, leaves a blank one blank, and breaks any other. */
  lemma {:induction false} TrailingSpace(m: Scan, c: char)
    requires IsSpace(c)
    ensures Complete(m.stage) ==> Step(m, c) == Some(Scan(Trail, m.number))
    ensures m.stage == Lead ==> Step(m, c) == Some(m)
    ensures !Complete(m.stage) && m.stage != Lead ==> Step(m, c) == None
  {
  }

  /** Whitespace around the text does not change what `float` makes of it. */
  lemma {:induction false} SpaceIgnored(s: string, c: char)
    requires IsSpace(c)
    ensures ParseFloat([c] + s) == ParseFloat(s)
    ensures ParseFloat(s + [c]) == ParseFloat(s)
  {
    RunAppend([c], s, Start);
    RunOne(c, Start);
    RunAppend(s, [c], Start);
    match Run(s, Start)
    case None =>
    case Some(m) =>
      RunOne(c, m);
      TrailingSpace(m, c);
  }

  predicate NumberChar(c: char) {
    IsDigit(c) || IsSpace(c) || c in {'+', '-', '.', 'e', 'E'}
  }

  predicate NumberChars(s: string) {
    forall i :: 0 <= i < |s| ==> NumberChar(s[i])
  }

  predicate HasDigit(s: string) {
    exists i :: 0 <= i < |s| && IsDigit(s[i])
  }

  /** The stages reached only after a mantissa digit. */
  predicate DigitSeen(stage: Stage) {
    stage != Lead && stage != Signed && stage != Dot
  }

  /** A scan that does not stop reads only number characters. */
  lemma {:induction false} RunChars(s: string, st: Scan)
    ensures Run(s, st).Some? ==> NumberChars(s)
    decreases |s|
  {
    if s != [] && Step(st, s[0]).Some? {
      RunChars(s[1..], Step(st, s[0]).value);
      assert forall i :: 1 <= i < |s| ==> s[i] == s[1..][i - 1];
    }
  }

  /** A scan that reaches a stage after a mantissa digit from one before it has read a digit. */
  lemma {:induction false} RunDigit(s: string, st: Scan)
    requires !DigitSeen(st.stage)
    ensures Run(s, st).Some? && DigitSeen(Run(s, st).value.stage) ==> HasDigit(s)
    decreases |s|
  {
    if s != [] && Step(st, s[0]).Some? {
      var next := Step(st, s[0]).value;
      if DigitSeen(next.stage) {
        assert IsDigit(s[0]);
      } else {
        RunDigit(s[1..], next);
        if Run(s[1..], next).Some? && DigitSeen(Run(s[1..], next).value.stage) {
          var i :| 0 <= i < |s[1..]| && IsDigit(s[1..][i]);
          assert IsDigit(s[i + 1]);
        }
      }
    }
  }

  /**
   * Only text that looks like a number converts: it holds at least one
   * digit and nothing but digits, whitespace, signs, points and exponent
   * letters. `float("abc")` and `float("")` raise ValueError.
   */
  lemma {:induction false} OnlyNumbersParse(s: string)
    ensures ParseFloat(s).Some? ==> NumberChars(s) && HasDigit(s)
  {
    RunChars(s, Start);
    RunDigit(s, Start);
  }
}
