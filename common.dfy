/**
 * Values, exceptions and warnings shared by the whole instrument model.
 *
 * A process variable (PV) holds a Python value; the model keeps the four
 * kinds the instrument code meets: None, a number, a string and a list.
 * Numbers are exact reals: the floating-point behaviour of the beamline
 * hardware is not part of this model.
 */
module Common {

  datatype Option<T> = None | Some(value: T)

  /** The outcome of an operation that may raise one of the exceptions below. */
  datatype Result<T> = Ok(value: T) | Err(error: Error)

  /** A Python value as a PV, a scan variable or a stage position holds it. */
  datatype Value = VNone | VNum(num: real) | VStr(str: string) | VList(items: seq<Value>)

  /**
   * The exceptions of the instrument code: the ones declared in the two
   * `exceptions_` modules (EnergyError, PVError, TimeoutError) and the
   * built-in ones the modelled code lets escape. FormatError stands for
   * whatever `str.format` raises on a malformed PV name template;
   * ArithmeticFailure for an exception raised by the abstracted optics
   * arithmetic (a ZeroDivisionError, or a ValueError from `math.sqrt` that
   * no handler catches). OSError is an HDF file that cannot be opened.
   */
  datatype Error =
    | EnergyError
    | PVError
    | TimeoutError
    | TypeError
    | ValueError
    | KeyError
    | AttributeError
    | AssertionError
    | NameError
    | ZeroDivisionError
    | FormatError
    | ArithmeticFailure
    | OSError

  /** The warnings the instrument code emits with `warnings.warn`. */
  datatype Warning =
    | PermitNotGranted                   // "Shutter permit not granted."
    | NotSetWithoutPermit(pv: string)    // a permit_required PV written without permit
    | PutFailed(pv: string)              // a waited-for write reported failure
    | CastFailed(pv: string)             // the descriptor's dtype raised TypeError
    | PollTimedOut(pv: string)           // wait_pv gave up
    | ArithmeticWarning                  // move_energy's guarded arithmetic failed
    | ShuttersNotOpened                  // open_shutters without permit
    | ShuttersNotClosed                  // close_shutters without permit
    | NeitherShutterEnabled
    | ProjectionsWithShuttersClosed
    | WhiteFieldWithShuttersClosed
    | DarkFieldWithShuttersOpen
    | EnergiesNotSaved                   // the energy list could not be written to the HDF file

  /** How an instrument operation ended. */
  datatype Status =
    | Done                 // returned normally
    | Raised(error: Error) // an exception escaped
    | StillPolling         // a polling loop had not finished when the supplied readings ran out

  /** Regrouping a concatenation; the solver does not do it unaided. */
  lemma AppendAssoc<T>(a: seq<T>, b: seq<T>, c: seq<T>)
    ensures a + (b + c) == a + b + c
  {
  }

  /** A non-empty sequence followed by two more: its head, then the rest. */
  lemma ConsAppend<T>(a: seq<T>, u: seq<T>, v: seq<T>)
    requires a != []
    ensures a + u + v == [a[0]] + (a[1..] + u + v)
  {
    assert a == [a[0]] + a[1..];
  }

  /** A prefix one element longer. */
  lemma TakeSnoc<T>(s: seq<T>, i: int)
    requires 0 <= i < |s|
    ensures s[..i + 1] == s[..i] + [s[i]]
  {
  }

  /** `a` is where `b` starts. */
  predicate IsPrefix<T(==)>(a: seq<T>, b: seq<T>) {
    |a| <= |b| && b[..|a|] == a
  }

  /** `a` is where `b` ends. */
  predicate IsSuffix<T(==)>(a: seq<T>, b: seq<T>) {
    |a| <= |b| && b[|b| - |a|..] == a
  }

  lemma PrefixOfAppend<T>(a: seq<T>, b: seq<T>, x: seq<T>)
    requires IsPrefix(a, b)
    ensures IsPrefix(a, b + x)
  {
    assert (b + x)[..|a|] == b[..|a|];
  }

  lemma AppendIsPrefix<T>(a: seq<T>, x: seq<T>)
    ensures IsPrefix(a, a + x)
  {
    assert (a + x)[..|a|] == a;
  }

  lemma PrefixTrans<T>(a: seq<T>, b: seq<T>, c: seq<T>)
    requires IsPrefix(a, b) && IsPrefix(b, c)
    ensures IsPrefix(a, c)
  {
    assert c[..|a|] == c[..|b|][..|a|];
  }

  /** A log that went on from `b` by `x`: it still starts with `a` and now ends with `x`, the two apart. */
  lemma PrefixThenSuffix<T>(a: seq<T>, b: seq<T>, x: seq<T>)
    requires IsPrefix(a, b)
    ensures IsPrefix(a, b + x) && IsSuffix(x, b + x) && |a| + |x| <= |b + x|
  {
    PrefixOfAppend(a, b, x);
    assert (b + x)[|b|..] == x;
  }

  /** A positive multiple of a positive number is at least that number. */
  lemma MulAtLeast(a: int, d: int)
    requires a >= 1 && d > 0
    ensures a * d >= d
  {
    var e := a - 1;
    assert a * d == e * d + d;
    assert e * d >= 0;
  }

  // ------------------------------------------------------ float() of text

  predicate IsDigit(c: char) {
    '0' <= c <= '9'
  }

  /** The ASCII whitespace `float` ignores around a number: space, tab, newline, vertical tab, form feed, return. */
  predicate IsSpace(c: char) {
    c == ' ' || '\t' <= c <= '\r'
  }

  predicate AllDigits(s: string) {
    forall i :: 0 <= i < |s| ==> IsDigit(s[i])
  }

  function DigitOf(c: char): nat {
    if IsDigit(c) then (c as int - '0' as int) as nat else 0
  }

  /** The value of a string of decimal digits, most significant first. */
  function DigitsValue(s: string): nat {
    if s == [] then 0 else 10 * DigitsValue(s[..|s| - 1]) + DigitOf(s[|s| - 1])
  }

  function Pow10(n: nat): (r: nat)
    ensures r >= 1
  {
    if n == 0 then 1 else 10 * Pow10(n - 1)
  }

  /** `x` divided by ten `n` times. */
  function Shrink(x: real, n: nat): real {
    if n == 0 then x else Shrink(x, n - 1) / 10.0
  }

  /** `x` times ten to the power `e`. */
  function Scale(x: real, e: int): real
    decreases if e < 0 then -e else e
  {
    if e == 0 then x else if e > 0 then 10.0 * Scale(x, e - 1) else Scale(x, e + 1) / 10.0
  }

  /** Digits after the decimal point: their value scaled down by ten per digit. */
  function FractionValue(f: string): real {
    Shrink(DigitsValue(f) as real, |f|)
  }

  /**
   * The number read so far: its sign, every mantissa digit read as one
   * integer, how many of those digits follow the point, and the sign and
   * digits of the exponent.
   */
  datatype Number = Number(negative: bool, digits: nat, scale: nat, expNegative: bool, exponent: nat)

  /** The value a number's parts spell. */
  function NumberValue(n: Number): real {
    var e: int := if n.expNegative then -(n.exponent as int) else n.exponent;
    var m := Scale(Shrink(n.digits as real, n.scale), e);
    if n.negative then -m else m
  }

  /** Where a left-to-right scan of a float literal stands. */
  datatype Stage =
    | Lead        // nothing but whitespace so far
    | Signed      // a sign, no digit yet
    | Whole       // digits, no point yet
    | Dot         // a point with no digit before it
    | Fraction    // a point, and at least one mantissa digit
    | Mark        // `e` or `E` after the mantissa
    | MarkSigned  // the sign of the exponent
    | Exponent    // exponent digits
    | Trail       // whitespace after a complete number

  /** The stages in which the text read so far is a whole literal. */
  predicate Complete(stage: Stage) {
    stage == Whole || stage == Fraction || stage == Exponent || stage == Trail
  }

  datatype Scan = Scan(stage: Stage, number: Number)

  const Zero := Number(false, 0, 0, false, 0)
  const Start := Scan(Lead, Zero)

  /** One more mantissa digit. */
  function Shift(n: Number, c: char): Number {
    n.(digits := 10 * n.digits + DigitOf(c))
  }

  /** One more exponent digit. */
  function ShiftExponent(n: Number, c: char): Number {
    n.(exponent := 10 * n.exponent + DigitOf(c))
  }

  /** One character of the literal, or None when `c` cannot come next. */
  function Step(st: Scan, c: char): Option<Scan> {
    var n := st.number;
    match st.stage
    case Lead =>
      if IsSpace(c) then Some(st)
      else if c == '+' || c == '-' then Some(Scan(Signed, n.(negative := c == '-')))
      else if IsDigit(c) then Some(Scan(Whole, Shift(n, c)))
      else if c == '.' then Some(Scan(Dot, n))
      else None
    case Signed =>
      if IsDigit(c) then Some(Scan(Whole, Shift(n, c)))
      else if c == '.' then Some(Scan(Dot, n))
      else None
    case Whole =>
      if IsDigit(c) then Some(Scan(Whole, Shift(n, c)))
      else if c == '.' then Some(Scan(Fraction, n))
      else if c == 'e' || c == 'E' then Some(Scan(Mark, n))
      else if IsSpace(c) then Some(Scan(Trail, n))
      else None
    case Dot =>
      if IsDigit(c) then Some(Scan(Fraction, Shift(n, c).(scale := n.scale + 1))) else None
    case Fraction =>
      if IsDigit(c) then Some(Scan(Fraction, Shift(n, c).(scale := n.scale + 1)))
      else if c == 'e' || c == 'E' then Some(Scan(Mark, n))
      else if IsSpace(c) then Some(Scan(Trail, n))
      else None
    case Mark =>
      if c == '+' || c == '-' then Some(Scan(MarkSigned, n.(expNegative := c == '-')))
      else if IsDigit(c) then Some(Scan(Exponent, ShiftExponent(n, c)))
      else None
    case MarkSigned =>
      if IsDigit(c) then Some(Scan(Exponent, ShiftExponent(n, c))) else None
    case Exponent =>
      if IsDigit(c) then Some(Scan(Exponent, ShiftExponent(n, c)))
      else if IsSpace(c) then Some(Scan(Trail, n))
      else None
    case Trail =>
      if IsSpace(c) then Some(st) else None
  }

  /** The scan after reading all of `s`, or None at the first character that cannot come next. */
  function Run(s: string, st: Scan): Option<Scan>
    decreases |s|
  {
    if s == [] then Some(st)
    else match Step(st, s[0])
      case None => None
      case Some(next) => Run(s[1..], next)
  }

  /**
   * Python's `float(s)` on text: whitespace around the number is ignored;
   * the number is an optional sign, decimal digits with at most one point
   * and at least one digit, and an optional exponent, `e` or `E` with an
   * optional sign and at least one digit. Any other text is None (`float`
   * raises ValueError).
   */
  function ParseFloat(s: string): Option<real> {
    match Run(s, Start)
    case Some(st) => if Complete(st.stage) then Some(NumberValue(st.number)) else None
    case None => None
  }

  /** Python's `float(v)` on the values the model knows. */
  function FloatOf(v: Value): (r: Result<real>)
    ensures r.Ok? <==> v.VNum? || (v.VStr? && ParseFloat(v.str).Some?)
    ensures v.VNum? ==> r == Ok(v.num)
    ensures v.VStr? ==> r == (if ParseFloat(v.str).Some? then Ok(ParseFloat(v.str).value) else Err(ValueError))
    ensures v.VNone? || v.VList? ==> r == Err(TypeError)
  {
    match v
    case VNum(x) => Ok(x)
    case VStr(s) => if ParseFloat(s).Some? then Ok(ParseFloat(s).value) else Err(ValueError)
    case _ => Err(TypeError)
  }
}
