/**
 * The list helpers of `scanlib/tools.py`: padding a stage position with
 * Nones, and building a flat energy list from (start, stop, step) ranges.
 * Energies are integers here (eV, say); NumPy's floating-point `arange` is
 * not part of this model.
 */
module ScanTools {
  import opened Common

  function Max(a: int, b: int): int {
    if a < b then b else a
  }

  // -------------------------------------------------------- expand_position

  /** `tuple(position) + (None,) * (length - len(position))`. */
  function ExpandPosition(position: seq<Value>, length: int): (r: seq<Value>)
    ensures |r| == Max(|position|, length)
    ensures r[..|position|] == position
    ensures forall i :: |position| <= i < |r| ==> r[i] == VNone
  {
    position + seq(Max(length - |position|, 0), _ => VNone)
  }

  /** Padding a padded position to the same length changes nothing. */
  lemma ExpandPositionIdempotent(position: seq<Value>, length: int)
    ensures ExpandPosition(ExpandPosition(position, length), length) == ExpandPosition(position, length)
  {
    var once := ExpandPosition(position, length);
    assert Max(length - |once|, 0) == 0;
    assert once + [] == once;
  }

  /** A position at least `length` long comes back unchanged. */
  lemma ExpandLongPosition(position: seq<Value>, length: int)
    requires |position| >= length
    ensures ExpandPosition(position, length) == position
  {
    assert position + [] == position;
  }

  // --------------------------------------------------------------- arange

  /** `np.arange(start, limit, step)` over integers; the step is not zero. */
  function Arange(start: int, limit: int, step: int): (r: seq<int>)
    requires step != 0
    decreases if step > 0 then limit - start else start - limit
  {
    if (step > 0 && start < limit) || (step < 0 && start > limit)
    then [start] + Arange(start + step, limit, step)
    else []
  }

  /**
   * The values are start, start + step, ...: every one on the limit's
   * side of start and short of the limit, and the next one would not be.
   */
  lemma {:induction false} ArangeShape(start: int, limit: int, step: int)
    requires step != 0
    ensures var r := Arange(start, limit, step);
            && (forall i :: 0 <= i < |r| ==> r[i] == start + i * step)
            && (step > 0 ==> (forall i :: 0 <= i < |r| ==> start <= r[i] < limit) && start + |r| * step >= limit)
            && (step < 0 ==> (forall i :: 0 <= i < |r| ==> limit < r[i] <= start) && start + |r| * step <= limit)
    decreases if step > 0 then limit - start else start - limit
  {
    var r := Arange(start, limit, step);
    if r != [] {
      ArangeShape(start + step, limit, step);
      var t := Arange(start + step, limit, step);
      assert r == [start] + t;
      forall i | 1 <= i < |r|
        ensures r[i] == start + i * step
      {
        StepMul(i, step);
        assert r[i] == t[i - 1];
      }
      StepMul(|r|, step);
    }
  }

  lemma StepMul(i: int, step: int)
    ensures step + (i - 1) * step == i * step
  {
  }

  /** A stop reached by whole steps from start is in `arange(start, stop + step, step)`: the stop is inclusive. */
  lemma {:induction false} StopIncluded(start: int, m: nat, step: int)
    requires step != 0
    ensures start + m * step in Arange(start, start + m * step + step, step)
    decreases m
  {
    if m > 0 {
      StopIncluded(start + step, m - 1, step);
      assert start + step + (m - 1) * step == start + m * step;
    }
  }

  // ------------------------------------------------------------ np.unique

  predicate StrictlyIncreasing(s: seq<int>) {
    forall i, j :: 0 <= i < j < |s| ==> s[i] < s[j]
  }

  /** Insert x into an ascending duplicate-free list, keeping it so. */
  function InsertSorted(x: int, s: seq<int>): (r: seq<int>)
    requires StrictlyIncreasing(s)
    ensures StrictlyIncreasing(r)
    ensures forall y :: y in r <==> y == x || y in s
  {
    if s == [] then [x]
    else if x < s[0] then
      HeadLeast(s);
      ConsSorted(x, s);
      [x] + s
    else if x == s[0] then s
    else
      var t := InsertSorted(x, s[1..]);
      AboveHead(s);
      ConsSorted(s[0], t);
      assert s == [s[0]] + s[1..];
      [s[0]] + t
  }

  /** The head of an ascending list is its least element. */
  lemma HeadLeast(s: seq<int>)
    requires StrictlyIncreasing(s) && s != []
    ensures forall y :: y in s ==> s[0] <= y
  {
    forall y | y in s
      ensures s[0] <= y
    {
      var j :| 0 <= j < |s| && s[j] == y;
    }
  }

  /** Everything after the head of a strictly ascending list is above it. */
  lemma AboveHead(s: seq<int>)
    requires StrictlyIncreasing(s) && s != []
    ensures forall y :: y in s[1..] ==> s[0] < y
  {
    forall y | y in s[1..]
      ensures s[0] < y
    {
      var j :| 0 <= j < |s[1..]| && s[1..][j] == y;
      assert s[j + 1] == y;
    }
  }

  /** A value below every element of a strictly ascending list can go in front. */
  lemma ConsSorted(h: int, t: seq<int>)
    requires StrictlyIncreasing(t) && forall y :: y in t ==> h < y
    ensures StrictlyIncreasing([h] + t)
  {
    var r := [h] + t;
    forall i, j | 0 <= i < j < |r|
      ensures r[i] < r[j]
    {
      assert r[j] == t[j - 1] && t[j - 1] in t;
      if i > 0 {
        assert r[i] == t[i - 1];
      }
    }
  }

  /** `np.unique`: the distinct elements, ascending. */
  function Unique(xs: seq<int>): (r: seq<int>)
    ensures StrictlyIncreasing(r)
    ensures forall y :: y in r <==> y in xs
  {
    if xs == [] then [] else InsertSorted(xs[0], Unique(xs[1..]))
  }

  /** An ascending duplicate-free list is fixed by its elements. */
  lemma {:induction false} SortedWithSameElements(a: seq<int>, b: seq<int>)
    requires StrictlyIncreasing(a) && StrictlyIncreasing(b)
    requires forall y :: y in a <==> y in b
    ensures a == b
    decreases |a|
  {
    if a == [] {
      FirstElement(b);
    } else {
      assert a[0] in a;
      assert b != [] && b[0] in b;
      var i :| 0 <= i < |b| && b[i] == a[0];
      var j :| 0 <= j < |a| && a[j] == b[0];
      assert a[0] <= a[j] && b[0] <= b[i];
      forall y
        ensures y in a[1..] <==> y in b[1..]
      {
        TailElements(a, y);
        TailElements(b, y);
      }
      SortedWithSameElements(a[1..], b[1..]);
      assert a == [a[0]] + a[1..] && b == [b[0]] + b[1..];
    }
  }

  lemma FirstElement(s: seq<int>)
    ensures s != [] ==> s[0] in s
  {
  }

  /** The tail of an ascending duplicate-free list holds all its elements but the first. */
  lemma TailElements(s: seq<int>, y: int)
    requires StrictlyIncreasing(s) && s != []
    ensures y in s[1..] <==> y in s && y != s[0]
  {
    if y in s[1..] {
      var j :| 0 <= j < |s[1..]| && s[1..][j] == y;
      assert s[j + 1] == y;
    }
    if y in s && y != s[0] {
      var j :| 0 <= j < |s| && s[j] == y;
      assert s[1..][j - 1] == y;
    }
  }

  /** Any ascending duplicate-free list with the same elements is `Unique`'s result. */
  lemma UniqueIsCanonical(xs: seq<int>, s: seq<int>)
    requires StrictlyIncreasing(s) && forall y :: y in s <==> y in xs
    ensures Unique(xs) == s
  {
    SortedWithSameElements(Unique(xs), s);
  }

  // ---------------------------------------------------------- energy_range

  /** A (start, stop, step) energy range; stop is inclusive. */
  datatype Range = Range(start: int, stop: int, step: int)

  predicate NoZeroStep(ranges: seq<Range>) {
    forall i :: 0 <= i < |ranges| ==> ranges[i].step != 0
  }

  /** The energies of one range: `np.arange(start, stop + step, step)`. */
  function RangeValues(r: Range): seq<int>
    requires r.step != 0
  {
    Arange(r.start, r.stop + r.step, r.step)
  }

  /** `np.concatenate` of the per-range lists, in order. */
  function Concatenated(ranges: seq<Range>): seq<int>
    requires NoZeroStep(ranges)
  {
    if ranges == [] then [] else RangeValues(ranges[0]) + Concatenated(ranges[1..])
  }

  /**
   * `energy_range(*ranges)`: a zero step makes `np.arange` raise
   * ZeroDivisionError; no ranges at all make `np.concatenate` raise
   * ValueError; otherwise the distinct energies ascending.
   */
  function EnergyRange(ranges: seq<Range>): (r: Result<seq<int>>)
    ensures r == Err(ZeroDivisionError) <==> !NoZeroStep(ranges)
    ensures r == Err(ValueError) <==> ranges == []
    ensures r.Ok? ==> StrictlyIncreasing(r.value)
  {
    if !NoZeroStep(ranges) then Err(ZeroDivisionError)
    else if ranges == [] then Err(ValueError)
    else Ok(Unique(Concatenated(ranges)))
  }

  lemma {:induction false} ConcatenatedElements(ranges: seq<Range>)
    requires NoZeroStep(ranges)
    ensures forall e :: e in Concatenated(ranges) <==> exists i :: 0 <= i < |ranges| && e in RangeValues(ranges[i])
  {
    if ranges != [] {
      ConcatenatedElements(ranges[1..]);
      forall e | e in Concatenated(ranges)
        ensures exists i :: 0 <= i < |ranges| && e in RangeValues(ranges[i])
      {
        if e !in RangeValues(ranges[0]) {
          assert e in Concatenated(ranges[1..]);
          var i :| 0 <= i < |ranges[1..]| && e in RangeValues(ranges[1..][i]);
          assert ranges[1..][i] == ranges[i + 1];
        }
      }
      forall e, i | 0 <= i < |ranges| && e in RangeValues(ranges[i])
        ensures e in Concatenated(ranges)
      {
        if i > 0 {
          assert ranges[1..][i - 1] == ranges[i];
        }
      }
    }
  }

  /**
   * The energies are exactly those of the ranges: each energy of each
   * range appears, once, in ascending order, so a stop shared with the next
   * range's start appears once.
   */
  lemma EnergyRangeContents(ranges: seq<Range>)
    requires NoZeroStep(ranges) && ranges != []
    ensures var r := EnergyRange(ranges);
            && r.Ok? && StrictlyIncreasing(r.value)
            && forall e :: e in r.value <==> exists i :: 0 <= i < |ranges| && e in RangeValues(ranges[i])
  {
    ConcatenatedElements(ranges);
  }

  /** The ranges of consecutive points with the step between them. */
  function RangesOf(points: seq<int>, steps: seq<int>): (r: seq<Range>)
    requires |points| == |steps| + 1
    ensures |r| == |steps|
  {
    seq(|steps|, i requires 0 <= i < |steps| => Range(points[i], points[i + 1], steps[i]))
  }

  /**
   * `energy_range_from_points(points, steps)`: ValueError unless there is
   * one more point than steps; then the range list built in a loop is
   * passed to `energy_range`.
   */
  method EnergyRangeFromPoints(points: seq<int>, steps: seq<int>) returns (r: Result<seq<int>>)
    ensures |points| != |steps| + 1 ==> r == Err(ValueError)
    ensures |points| == |steps| + 1 ==> r == EnergyRange(RangesOf(points, steps))
  {
    if |points| != |steps| + 1 {
      return Err(ValueError);
    }
    var ranges: seq<Range> := [];
    var idx := 0;
    while idx < |steps|
      invariant 0 <= idx <= |steps|
      invariant ranges == RangesOf(points, steps)[..idx]
    {
      var start := points[idx];
      var stop := points[idx + 1];
      var step := steps[idx];
      ranges := ranges + [Range(start, stop, step)];
      idx := idx + 1;
    }
    assert ranges == RangesOf(points, steps);
    r := EnergyRange(ranges);
  }

  /**
   * The error cases of `energy_range_from_points`: ValueError exactly when
   * the lengths disagree or there are no steps; ZeroDivisionError when some
   * step is zero.
   */
  lemma FromPointsErrors(points: seq<int>, steps: seq<int>)
    requires |points| == |steps| + 1
    ensures EnergyRange(RangesOf(points, steps)) == Err(ValueError) <==> steps == []
    ensures EnergyRange(RangesOf(points, steps)) == Err(ZeroDivisionError) <==> 0 in steps
  {
    var rs := RangesOf(points, steps);
    if 0 in steps {
      var i :| 0 <= i < |steps| && steps[i] == 0;
      assert rs[i].step == 0;
    }
  }

  /** Two ranges sharing the point 8500: the shared point appears once. */
  lemma TwoRangeExample()
    ensures EnergyRange(RangesOf([8300, 8500, 8700], [100, 50]))
            == Ok([8300, 8400, 8500, 8550, 8600, 8650, 8700])
  {
    var rs := RangesOf([8300, 8500, 8700], [100, 50]);
    assert rs == [Range(8300, 8500, 100), Range(8500, 8700, 50)];
    assert RangeValues(rs[0]) == [8300, 8400, 8500];
    assert RangeValues(rs[1]) == [8500, 8550, 8600, 8650, 8700];
    assert rs[1..][1..] == [];
    var c := Concatenated(rs);
    assert c == [8300, 8400, 8500] + ([8500, 8550, 8600, 8650, 8700] + []);
    var s := [8300, 8400, 8500, 8550, 8600, 8650, 8700];
    assert StrictlyIncreasing(s);
    forall y
      ensures y in s <==> y in c
    {
      assert c == [8300, 8400, 8500, 8500, 8550, 8600, 8650, 8700];
    }
    UniqueIsCanonical(c, s);
  }
}
