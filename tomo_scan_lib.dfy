/**
 * The helpers of `scanlib/tomo_scan_lib.py` and its older copy
 * `tomo/32id/tomo_scan_lib.py`: the library `wait_pv`, the fixed-width
 * bit reversal, the interlaced view-index schedule, the frame-index
 * sequence handed to the remote verifier and the frame total of
 * `setup_writer`. Both copies of `wait_pv`, `bitreversed_decimal` and
 * `gen_interlaced_views` have the same code; one model serves both.
 */
module TomoScanLib {
  import opened Common
  import opened Polling

  // ---------------------------------------------------------------- wait_pv

  /**
   * `wait_pv(pv, wait_val, max_timeout_sec=-1)`: True when a read matches,
   * False when it gives up; None when the supplied readings ran out first.
   */
  method WaitPv(readings: seq<Value>, waitVal: Value, maxTimeoutSec: real) returns (r: Option<bool>)
    ensures r == Some(true) <==> PollOf(readings, waitVal, maxTimeoutSec).Matched?
    ensures r == Some(false) <==> PollOf(readings, waitVal, maxTimeoutSec).TimedOut?
    ensures r == None <==> PollOf(readings, waitVal, maxTimeoutSec).Exhausted?
  {
    var p := PollUntil(readings, waitVal, maxTimeoutSec);
    match p
    case Matched(_) => r := Some(true);
    case TimedOut(_) => r := Some(false);
    case Exhausted => r := None;
  }

  // ------------------------------------------------------------ bit strings

  function Pow2(n: nat): (r: nat)
    ensures r >= 1
  {
    if n == 0 then 1 else 2 * Pow2(n - 1)
  }

  function Digit(b: nat): char {
    if b % 2 == 1 then '1' else '0'
  }

  function DigitValue(c: char): nat {
    if c == '1' then 1 else 0
  }

  predicate Binary(s: string) {
    forall i :: 0 <= i < |s| ==> s[i] == '0' || s[i] == '1'
  }

  /** `bin(x)[2:]` for x >= 0: binary digits, most significant first, no leading zeros. */
  function Bin(x: nat): string
    decreases x
  {
    if x < 2 then [Digit(x)] else Bin(x / 2) + [Digit(x % 2)]
  }

  function BitLength(x: nat): nat
    decreases x
  {
    if x < 2 then 1 else 1 + BitLength(x / 2)
  }

  /** The n-digit binary form of x mod 2^n, most significant digit first. */
  function Bits(x: nat, n: nat): (r: string)
    ensures |r| == n
  {
    if n == 0 then [] else Bits(x / 2, n - 1) + [Digit(x % 2)]
  }

  function Zeros(m: nat): string {
    seq(m, _ => '0')
  }

  /** `'0' * (maxbits - len(s)) + s` when s is shorter than maxbits; s otherwise. */
  function Padded(s: string, maxbits: int): string {
    if |s| < maxbits then Zeros(maxbits - |s|) + s else s
  }

  function Reverse(s: string): (r: string)
    ensures |r| == |s|
  {
    seq(|s|, i requires 0 <= i < |s| => s[|s| - 1 - i])
  }

  /** `int(s, 2)`, most significant digit first. */
  function ParseBinary(s: string): nat {
    if s == [] then 0 else 2 * ParseBinary(s[..|s| - 1]) + DigitValue(s[|s| - 1])
  }

  /**
   * The reference bit reversal: bit j of x becomes bit n-1-j of the
   * result, for the n low bits of x.
   */
  function BitReverse(x: nat, n: nat): nat {
    if n == 0 then 0
    else (if x % 2 == 1 then Pow2(n - 1) else 0) + BitReverse(x / 2, n - 1)
  }

  lemma {:induction false} BinIsBits(x: nat)
    ensures Bin(x) == Bits(x, BitLength(x)) && x < Pow2(BitLength(x))
    decreases x
  {
    if x >= 2 {
      BinIsBits(x / 2);
    }
  }

  lemma {:induction false} BitLengthFits(x: nat, n: nat)
    requires n >= 1 && x < Pow2(n)
    ensures BitLength(x) <= n
    decreases n
  {
    if x >= 2 {
      assert n >= 2;
      BitLengthFits(x / 2, n - 1);
    }
  }

  lemma {:induction false} BitsOfZero(m: nat)
    ensures Bits(0, m) == Zeros(m)
  {
    if m > 0 {
      BitsOfZero(m - 1);
      assert Zeros(m - 1) + ['0'] == Zeros(m);
    }
  }

  /** Leading zeros: a number below 2^L has `m + L` digits `m` zeros then its L digits. */
  lemma {:induction false} BitsPadded(x: nat, m: nat, l: nat)
    requires x < Pow2(l)
    ensures Bits(x, m + l) == Zeros(m) + Bits(x, l)
    decreases l
  {
    if l == 0 {
      BitsOfZero(m);
    } else {
      BitsPadded(x / 2, m, l - 1);
      assert Bits(x, m + l) == Bits(x / 2, m + l - 1) + [Digit(x % 2)];
    }
  }

  /** The zero-padded `bin` string of x < 2^n is its n-digit binary form. */
  lemma PaddedBin(x: nat, n: nat)
    requires n >= 1 && x < Pow2(n)
    ensures Padded(Bin(x), n) == Bits(x, n)
  {
    BinIsBits(x);
    BitLengthFits(x, n);
    var l := BitLength(x);
    BitsPadded(x, n - l, l);
    assert n - l + l == n;
  }

  lemma {:induction false} BitsBinary(x: nat, n: nat)
    ensures |Bits(x, n)| == n && Binary(Bits(x, n))
  {
    if n > 0 {
      BitsBinary(x / 2, n - 1);
    }
  }

  lemma {:induction false} ParseCons(c: char, t: string)
    ensures ParseBinary([c] + t) == (if c == '1' then Pow2(|t|) else 0) + ParseBinary(t)
    decreases |t|
  {
    if t != [] {
      var s := [c] + t;
      assert s[..|s| - 1] == [c] + t[..|t| - 1];
      ParseCons(c, t[..|t| - 1]);
    }
  }

  /** Reading the reversed digits back gives the reference bit reversal. */
  lemma {:induction false} ParseReversedBits(x: nat, n: nat)
    ensures ParseBinary(Reverse(Bits(x, n))) == BitReverse(x, n)
  {
    if n > 0 {
      var d := Digit(x % 2);
      var s := Bits(x / 2, n - 1);
      var rs := Reverse(s);
      var high := if x % 2 == 1 then Pow2(n - 1) else 0;
      assert Reverse(Bits(x, n)) == [d] + rs by {
        assert Bits(x, n) == s + [d];
      }
      assert ParseBinary([d] + rs) == high + ParseBinary(rs) by {
        BitsBinary(x / 2, n - 1);
        ParseCons(d, rs);
      }
      assert ParseBinary(rs) == BitReverse(x / 2, n - 1) by {
        ParseReversedBits(x / 2, n - 1);
      }
    }
  }

  /** Reading a number's n digits back gives it, when it has at most n digits. */
  lemma {:induction false} ParseBits(x: nat, n: nat)
    requires x < Pow2(n)
    ensures ParseBinary(Bits(x, n)) == x
  {
    if n > 0 {
      ParseBits(x / 2, n - 1);
      var s := Bits(x, n);
      assert s[..|s| - 1] == Bits(x / 2, n - 1) by { BitsBinary(x / 2, n - 1); }
    }
  }

  /** Writing a binary string's value with as many digits gives the string back. */
  lemma {:induction false} BitsOfParse(s: string)
    requires Binary(s)
    ensures Bits(ParseBinary(s), |s|) == s
    decreases |s|
  {
    if s != [] {
      var t := s[..|s| - 1];
      var c := s[|s| - 1];
      assert Binary(t);
      BitsOfParse(t);
      var v := 2 * ParseBinary(t) + DigitValue(c);
      assert v / 2 == ParseBinary(t) && v % 2 == DigitValue(c);
      assert Digit(DigitValue(c)) == c;
      assert t + [c] == s;
    }
  }

  lemma {:induction false} BitReverseBound(x: nat, n: nat)
    ensures BitReverse(x, n) < Pow2(n)
  {
    if n > 0 {
      BitReverseBound(x / 2, n - 1);
    }
  }

  /**
   * `bitreversed_decimal(x, n)` for 0 <= x < 2^n is the number whose n-digit
   * binary form is the reverse of x's, it is below 2^n, and reversing twice
   * gives x back.
   */
  lemma BitReverseProperties(x: nat, n: nat)
    requires x < Pow2(n)
    ensures BitReverse(x, n) < Pow2(n)
    ensures Bits(BitReverse(x, n), n) == Reverse(Bits(x, n))
    ensures BitReverse(BitReverse(x, n), n) == x
  {
    BitReverseBound(x, n);
    var y := BitReverse(x, n);
    var r := Reverse(Bits(x, n));
    assert Binary(r) && |r| == n by { BitsBinary(x, n); }
    assert ParseBinary(r) == y by { ParseReversedBits(x, n); }
    assert Bits(y, n) == r by { BitsOfParse(r); }
    assert ParseBinary(Reverse(Bits(y, n))) == BitReverse(y, n) by { ParseReversedBits(y, n); }
    assert Reverse(r) == Bits(x, n);
    assert ParseBinary(Bits(x, n)) == x by { ParseBits(x, n); }
  }

  lemma Pow2Monotone(a: nat, b: nat)
    requires a <= b
    ensures Pow2(a) <= Pow2(b)
    decreases b
  {
    if a < b {
      Pow2Monotone(a, b - 1);
    }
  }

  /** Halving and then dividing by m is dividing by 2m. */
  lemma HalfThenDivide(x: nat, m: nat)
    requires m >= 1
    ensures (x / 2) / m == x / (2 * m)
  {
    var h := x / 2;
    var q := h / m;
    var r := h % m;
    assert x == 2 * h + x % 2;
    assert h == q * m + r;
    assert x == q * (2 * m) + (2 * r + x % 2);
    DivModUnique(q, 2 * r + x % 2, 2 * m);
  }

  /** The first b of the a + b digits of x are the b digits of x shifted right by a. */
  lemma {:induction false} BitsPrefix(x: nat, a: nat, b: nat)
    ensures Bits(x, a + b)[..b] == Bits(x / Pow2(a), b)
    decreases a
  {
    BitsBinary(x, a + b);
    if a > 0 {
      var rest := Bits(x / 2, a - 1 + b);
      assert Bits(x, a + b) == rest + [Digit(x % 2)];
      BitsBinary(x / 2, a - 1 + b);
      assert Bits(x, a + b)[..b] == rest[..b];
      BitsPrefix(x / 2, a - 1, b);
      HalfThenDivide(x, Pow2(a - 1));
    }
  }

  /**
   * The maxbits leading digits of `bin(x)`, read as a number: x itself when
   * it has at most maxbits digits, its top maxbits bits otherwise.
   */
  function Leading(x: nat, maxbits: nat): nat {
    var l := BitLength(x);
    if l <= maxbits then x
    else
      var d := Pow2(l - maxbits);
      x / d
  }

  /** A number below 2^n is its own n leading digits. */
  lemma LeadingOfNarrow(x: nat, n: nat)
    requires n >= 1 && x < Pow2(n)
    ensures Leading(x, n) == x
  {
    BitLengthFits(x, n);
  }

  /** The first n digits of the padded `bin(x)` are the n-digit form of its leading digits. */
  lemma PaddedPrefix(x: nat, n: nat)
    requires n >= 1
    ensures |Padded(Bin(x), n)| >= n
    ensures Padded(Bin(x), n)[..n] == Bits(Leading(x, n), n)
  {
    BinIsBits(x);
    var l := BitLength(x);
    BitsBinary(x, l);
    BitsBinary(x, n);
    if l <= n {
      Pow2Monotone(l, n);
      PaddedBin(x, n);
    } else {
      BitsPrefix(x, l - n, n);
      assert l - n + n == l;
    }
  }

  /**
   * `bitreversed_decimal(dec_input, maxbits)`: None for maxbits 0; for
   * maxbits >= 1 it pads `bin(x)` with zeros to maxbits digits, builds the
   * reversed string of its first maxbits digits one character at a time and
   * parses it in base 2, so a wider x has its leading bits reversed. For a
   * negative maxbits the string stays empty and `int('', 2)` raises; for a
   * negative x the reversed string holds the `b` of `bin`'s `-0b`, and
   * `int(…, 2)` raises as well.
   */
  method BitReversedDecimal(x: int, maxbits: int) returns (r: Result<Option<nat>>)
    ensures maxbits == 0 ==> r == Ok(None)
    ensures maxbits < 0 || (maxbits > 0 && x < 0) ==> r == Err(ValueError)
    ensures maxbits > 0 && x >= 0 ==> r == Ok(Some(BitReverse(Leading(x, maxbits), maxbits)))
    ensures maxbits > 0 && 0 <= x < Pow2(maxbits) ==> r == Ok(Some(BitReverse(x, maxbits)))
  {
    if maxbits == 0 {
      return Ok(None);
    }
    if maxbits < 0 || x < 0 {
      return Err(ValueError);
    }
    var digits := Padded(Bin(x), maxbits);
    PaddedPrefix(x, maxbits);
    var bitRev: string := "";
    var i := 0;
    while i < maxbits
      invariant 0 <= i <= maxbits
      invariant bitRev == Reverse(digits[..maxbits])[..i]
    {
      bitRev := bitRev + [digits[maxbits - 1 - i]];
      i := i + 1;
    }
    assert bitRev == Reverse(Bits(Leading(x, maxbits), maxbits));
    ParseReversedBits(Leading(x, maxbits), maxbits);
    if x < Pow2(maxbits) {
      LeadingOfNarrow(x, maxbits);
    }
    r := Ok(Some(ParseBinary(bitRev)));
  }

  // ----------------------------------------------------- interlaced views

  /** `int(np.log2(K))` for K >= 1. */
  function Log2(k: nat): nat
    decreases k
  {
    if k < 2 then 0 else 1 + Log2(k / 2)
  }

  /**
   * The shapes for which `gen_interlaced_views` yields whole indices: K >= 2
   * dividing N, so that L = N / K is a whole number and `int(log2 K)` >= 1.
   */
  predicate ViewShape(n: int, k: int) {
    n > 0 && k >= 2 && n % k == 0
  }

  /** The shapes whose views are interlaced: K is moreover a power of two. */
  predicate InterlaceShape(n: int, k: int) {
    ViewShape(n, k) && Pow2(Log2(k)) == k
  }

  /**
   * View `i` before scaling by 180/N: `(i mod L) * K + Br(floor(i / L) mod K, int(log2 K))`
   * with L = N / K, where `Br` reverses the leading `int(log2 K)` bits.
   */
  function ViewIndex(n: int, k: int, i: nat): nat
    requires ViewShape(n, k)
  {
    var l := n / k;
    (i % l) * k + BitReverse(Leading((i / l) % k, Log2(k)), Log2(k))
  }

  /**
   * `gen_interlaced_views(N, K, N_p)`: fills an array of N_p views, view i
   * computed from `bitreversed_decimal` as the formula says.
   */
  method GenInterlacedViews(n: int, k: int, np: nat) returns (views: array<int>)
    requires ViewShape(n, k)
    ensures fresh(views) && views.Length == np
    ensures forall i :: 0 <= i < np ==> views[i] == ViewIndex(n, k, i)
  {
    var bits := Log2(k);
    LogOfAtLeastTwo(k);
    var l := n / k;
    views := new int[np];
    var i := 0;
    while i < np
      invariant 0 <= i <= np
      invariant forall j :: 0 <= j < i ==> views[j] == ViewIndex(n, k, j)
    {
      var buf1 := (i % l) * k;
      var q := (i / l) % k;
      var buf2 := BitReversedDecimal(q, bits);
      views[i] := buf1 + buf2.value.value;
      i := i + 1;
    }
  }

  /** `int(log2 K)` of K >= 2 is at least 1 and 2 to that power is at most K. */
  lemma {:induction false} LogOfAtLeastTwo(k: nat)
    requires k >= 1
    ensures k >= 2 ==> Log2(k) >= 1
    ensures Pow2(Log2(k)) <= k
    decreases k
  {
    if k >= 2 {
      LogOfAtLeastTwo(k / 2);
    }
  }

  lemma DivModBasics(x: int, d: int)
    requires d > 0
    ensures x == (x / d) * d + x % d && 0 <= x % d < d
    ensures x >= 0 ==> x / d >= 0
  {
  }

  /** Euclidean division by d > 0 is unique. */
  lemma DivModUnique(q: int, r: int, d: int)
    requires d > 0 && 0 <= r < d
    ensures (q * d + r) / d == q && (q * d + r) % d == r
  {
    var x := q * d + r;
    var q' := x / d;
    var r' := x % d;
    assert x == q' * d + r';
    if q' > q {
      MulAtLeast(q' - q, d);
    } else if q' < q {
      MulAtLeast(q - q', d);
    }
  }

  lemma MulBelow(a: int, b: int, c: int, d: int)
    requires 0 <= a < b && 0 <= c < d
    ensures a * d + c < b * d
  {
    MulAtLeast(b - a, d);
    assert b * d == (b - a) * d + a * d;
  }

  lemma QuotientBelow(i: int, l: int, k: int)
    requires 0 <= i < l * k && l > 0 && k > 0
    ensures 0 <= i / l < k
  {
    var q := i / l;
    assert q * l + i % l == i;
    if q < 0 {
      MulAtLeast(-q, l);
    }
    assert q * l <= i;
    assert (k - q) * l == k * l - q * l;
    assert (k - q) * l > 0;
  }

  lemma NatProduct(a: nat, b: nat)
    ensures a * b >= 0
  {
  }

  lemma ExactQuotient(n: int, k: int)
    requires n > 0 && k > 0 && n % k == 0
    ensures n / k >= 1 && n == (n / k) * k
  {
    var l := n / k;
    assert n == l * k;
  }

  /** The pieces of view i for 0 <= i < N: the position in the sub-frame and the sub-frame. */
  lemma ViewSplit(n: int, k: int, i: nat)
    requires InterlaceShape(n, k) && i < n
    ensures var l := n / k;
            l >= 1 && n == l * k && 0 <= i / l < k
            && ViewIndex(n, k, i) == (i % l) * k + BitReverse(i / l, Log2(k))
  {
    var l := n / k;
    ExactQuotient(n, k);
    assert i < l * k;
    QuotientBelow(i, l, k);
    ModSmall(i / l, k);
    LogOfAtLeastTwo(k);
    LeadingOfNarrow(i / l, Log2(k));
  }

  lemma ModSmall(x: int, d: int)
    requires 0 <= x < d
    ensures x % d == x
  {
  }

  /**
   * The view a given index v < N comes from: sub-frame Br(v mod K), position
   * v / K.
   */
  function ViewSource(n: int, k: int, v: nat): nat
    requires InterlaceShape(n, k)
  {
    var q: nat := BitReverse(v % k, Log2(k));
    var l: nat := n / k;
    DivModBasics(v, k);
    DivModBasics(n, k);
    var r: nat := v / k;
    NatProduct(q, l);
    q * l + r
  }

  /**
   * For K a power of two >= 2 dividing N, the unscaled views 0..N-1 are a
   * permutation of 0..N-1: each lies in range, no two coincide, and every
   * index in range is the view of the index ViewSource names.
   */
  lemma ViewsArePermutation(n: int, k: int)
    requires InterlaceShape(n, k)
    ensures forall i :: 0 <= i < n ==> ViewIndex(n, k, i) < n
    ensures forall i, j :: 0 <= i < n && 0 <= j < n && ViewIndex(n, k, i) == ViewIndex(n, k, j) ==> i == j
    ensures forall v :: 0 <= v < n ==> ViewSource(n, k, v) < n && ViewIndex(n, k, ViewSource(n, k, v)) == v
  {
    forall i | 0 <= i < n
      ensures ViewIndex(n, k, i) < n
    {
      ViewInRange(n, k, i);
    }
    forall i, j | 0 <= i < n && 0 <= j < n && ViewIndex(n, k, i) == ViewIndex(n, k, j)
      ensures i == j
    {
      ViewInjective(n, k, i, j);
    }
    forall v | 0 <= v < n
      ensures ViewSource(n, k, v) < n && ViewIndex(n, k, ViewSource(n, k, v)) == v
    {
      ViewSourceInverts(n, k, v);
    }
  }

  /** Every view of the first frame lies below N, K a power of two or not. */
  lemma ViewInRange(n: int, k: int, i: nat)
    requires ViewShape(n, k) && i < n
    ensures ViewIndex(n, k, i) < n
  {
    var l := n / k;
    var b := Log2(k);
    ExactQuotient(n, k);
    LogOfAtLeastTwo(k);
    var br := BitReverse(Leading((i / l) % k, b), b);
    BitReverseBound(Leading((i / l) % k, b), b);
    assert i % l < l by { DivModBasics(i, l); }
    MulBelow(i % l, l, br, k);
  }

  lemma ViewInjective(n: int, k: int, i: nat, j: nat)
    requires InterlaceShape(n, k) && i < n && j < n
    requires ViewIndex(n, k, i) == ViewIndex(n, k, j)
    ensures i == j
  {
    var l := n / k;
    var b := Log2(k);
    ViewSplit(n, k, i);
    ViewSplit(n, k, j);
    BitReverseBound(i / l, b);
    BitReverseBound(j / l, b);
    DivModUnique(i % l, BitReverse(i / l, b), k);
    DivModUnique(j % l, BitReverse(j / l, b), k);
    BitReverseProperties(i / l, b);
    BitReverseProperties(j / l, b);
    assert i / l == j / l && i % l == j % l;
    DivModBasics(i, l);
    DivModBasics(j, l);
  }

  lemma ViewSourceInverts(n: int, k: int, v: nat)
    requires InterlaceShape(n, k) && v < n
    ensures ViewSource(n, k, v) < n && ViewIndex(n, k, ViewSource(n, k, v)) == v
  {
    var b := Log2(k);
    var q := BitReverse(v % k, b);
    var r := v / k;
    SourceParts(n, k, v);
    ViewOfParts(n, k, q, r);
    BitReverseProperties(v % k, b);
  }

  /** The sub-frame and position ViewSource picks, and v in terms of them. */
  lemma SourceParts(n: int, k: int, v: nat)
    requires InterlaceShape(n, k) && v < n
    ensures var q := BitReverse(v % k, Log2(k));
            && 0 <= q < k && 0 <= v / k < n / k
            && ViewSource(n, k, v) == q * (n / k) + v / k
            && v == (v / k) * k + v % k
  {
    var l := n / k;
    ExactQuotient(n, k);
    assert k * l == n;
    QuotientBelow(v, k, l);
    BitReverseBound(v % k, Log2(k));
    DivModBasics(v, k);
  }

  /** The view of the index at position r of sub-frame q. */
  lemma ViewOfParts(n: int, k: int, q: int, r: int)
    requires InterlaceShape(n, k) && 0 <= q < k && 0 <= r < n / k
    ensures 0 <= q * (n / k) + r < n
    ensures ViewIndex(n, k, q * (n / k) + r) == r * k + BitReverse(q, Log2(k))
  {
    var l := n / k;
    ExactQuotient(n, k);
    SplitIndex(q, r, l, k);
    ViewAtParts(n, k, q * l + r, q, r);
  }

  /** The view of an index given its position r in, and its sub-frame q. */
  lemma ViewAtParts(n: int, k: int, src: nat, q: int, r: int)
    requires InterlaceShape(n, k) && src < n && 0 <= q < k
    requires src % (n / k) == r && src / (n / k) == q
    ensures ViewIndex(n, k, src) == r * k + BitReverse(q, Log2(k))
  {
    ViewSplit(n, k, src);
  }

  /** Position r of block q, blocks of l, lies below k * l and splits back into q and r. */
  lemma SplitIndex(q: int, r: int, l: int, k: int)
    requires 0 <= q < k && 0 <= r < l
    ensures 0 <= q * l + r < k * l
    ensures (q * l + r) / l == q && (q * l + r) % l == r
  {
    MulBelow(q, k, r, l);
    NatProduct(q, l);
    DivModUnique(q, r, l);
  }

  /** Views repeat from one frame of N to the next. */
  lemma ViewsRepeat(n: int, k: int, i: nat)
    requires ViewShape(n, k)
    ensures ViewIndex(n, k, i + n) == ViewIndex(n, k, i)
  {
    ExactQuotient(n, k);
    var l := n / k;
    var q := i / l;
    assert i + n == (q + k) * l + i % l;
    DivModUnique(q + k, i % l, l);
    assert q + k == (q / k + 1) * k + q % k;
    DivModUnique(q / k + 1, q % k, k);
  }
}
