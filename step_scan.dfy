/**
 * The angle bookkeeping of the 2-BM step scan (`aps_02bm/tomo_step_scan.py`):
 * `update_theta_for_more_proj`, which repeats every rotation angle once per
 * projection taken at it, and the final step of `tomo_scan` that applies
 * it. Angles are exact reals.
 */
module StepScan {
  import opened Common

  /** The reference: every angle repeated `p` times in place (none when p <= 0). */
  function Repeated(orig: seq<real>, p: int): seq<real> {
    if orig == [] then [] else seq(if p > 0 then p else 0, _ => orig[0]) + Repeated(orig[1..], p)
  }

  lemma {:induction false} RepeatedSnoc(s: seq<real>, x: real, p: int)
    ensures Repeated(s + [x], p) == Repeated(s, p) + seq(if p > 0 then p else 0, _ => x)
    decreases |s|
  {
    if s == [] {
      assert [x][1..] == [];
    } else {
      assert (s + [x])[1..] == s[1..] + [x];
      RepeatedSnoc(s[1..], x, p);
    }
  }

  /**
   * `update_theta_for_more_proj(orig_theta)`: for each angle in order, `p`
   * appends of it, where p is `int(variableDict['ProjectionsPerRot'])`.
   */
  method UpdateThetaForMoreProj(origTheta: seq<real>, p: int) returns (newTheta: seq<real>)
    ensures newTheta == Repeated(origTheta, p)
  {
    newTheta := [];
    var i := 0;
    while i < |origTheta|
      invariant 0 <= i <= |origTheta|
      invariant newTheta == Repeated(origTheta[..i], p)
    {
      var val := origTheta[i];
      var j := 0;
      ghost var before := newTheta;
      while j < p
        invariant 0 <= j <= (if p > 0 then p else 0)
        invariant newTheta == before + seq(j, _ => val)
      {
        newTheta := newTheta + [val];
        j := j + 1;
      }
      assert newTheta == before + seq(if p > 0 then p else 0, _ => val);
      RepeatedSnoc(origTheta[..i], val, p);
      assert origTheta[..i + 1] == origTheta[..i] + [val];
      i := i + 1;
    }
    assert origTheta[..i] == origTheta;
  }

  function Copies(p: int): nat {
    if p > 0 then p else 0
  }

  lemma {:induction false} RepeatedLength(orig: seq<real>, p: int)
    ensures |Repeated(orig, p)| == |orig| * Copies(p)
  {
    if orig != [] {
      RepeatedLength(orig[1..], p);
    }
  }

  lemma DivShift(x: int, p: int)
    requires x >= 0 && p > 0
    ensures (x + p) / p == x / p + 1
  {
    var q, r := x / p, x % p;
    assert x + p == (q + 1) * p + r;
    var q', r' := (x + p) / p, (x + p) % p;
    assert x + p == q' * p + r';
    if q' > q + 1 {
      MulAtLeast(q' - q - 1, p);
    } else if q' < q + 1 {
      MulAtLeast(q + 1 - q', p);
    }
  }

  lemma DivSmall(k: int, p: int)
    requires 0 <= k < p
    ensures k / p == 0
  {
  }

  lemma DivBelow(k: int, n: int, p: int)
    requires 0 <= k < n * p && p > 0
    ensures 0 <= k / p < n
  {
    var q := k / p;
    assert q * p <= k;
    if q >= n {
      MulAtLeast(q - n + 1, p);
    }
  }

  /**
   * The repeated list has len(orig) * p entries (none for p <= 0), and
   * entry k is orig[k / p]: entry i * p + j is orig[i] for every j < p,
   * each angle p times in a row, the original order kept.
   */
  lemma {:induction false} RepeatedEntries(orig: seq<real>, p: int)
    ensures |Repeated(orig, p)| == |orig| * Copies(p)
    ensures p > 0 ==> forall k :: 0 <= k < |Repeated(orig, p)| ==> k / p < |orig| && Repeated(orig, p)[k] == orig[k / p]
  {
    RepeatedLength(orig, p);
    if orig != [] && p > 0 {
      RepeatedEntries(orig[1..], p);
      var r := Repeated(orig, p);
      var head := seq(p, _ => orig[0]);
      var tail := Repeated(orig[1..], p);
      assert r == head + tail;
      forall k | 0 <= k < |r|
        ensures k / p < |orig| && r[k] == orig[k / p]
      {
        DivBelow(k, |orig|, p);
        if k < p {
          DivSmall(k, p);
          assert r[k] == head[k];
        } else {
          var j := k - p;
          DivShift(j, p);
          assert r[k] == tail[j];
          assert tail[j] == orig[1..][j / p];
        }
      }
    }
  }

  /** One projection per angle leaves the list as it was; none leaves it empty. */
  lemma {:induction false} RepeatedSmallCounts(orig: seq<real>, p: int)
    ensures p == 1 ==> Repeated(orig, p) == orig
    ensures p <= 0 ==> Repeated(orig, p) == []
  {
    if orig != [] {
      RepeatedSmallCounts(orig[1..], p);
      assert orig == [orig[0]] + orig[1..];
    }
  }

  /**
   * The software triggers `tomo_scan` makes at one angle: the recursive
   * filter's image count when the filter is on (none when that count is
   * not positive), otherwise ProjectionsPerRot when above 1, otherwise one.
   */
  function TriggersPerAngle(recursiveFilter: bool, filterImages: int, projectionsPerRot: int): (t: nat)
    ensures !recursiveFilter ==> t >= 1
    ensures !recursiveFilter && projectionsPerRot <= 1 ==> t == 1
  {
    if recursiveFilter then (if filterImages > 0 then filterImages else 0)
    else if projectionsPerRot > 1 then projectionsPerRot
    else 1
  }

  /**
   * The angle loop of `tomo_scan` and the angle list it returns: the
   * rotation stage is moved to each angle of `theta`, in order, and each
   * angle gets its software triggers; the angles returned are expanded
   * only when ProjectionsPerRot is above 1, whatever the triggers were.
   */
  method TomoScanTheta(theta: seq<real>, projectionsPerRot: int, recursiveFilter: bool, filterImages: int)
    returns (moves: seq<real>, triggers: seq<nat>, out: seq<real>)
    ensures moves == theta
    ensures |triggers| == |theta|
    ensures forall k :: 0 <= k < |triggers| ==> triggers[k] == TriggersPerAngle(recursiveFilter, filterImages, projectionsPerRot)
    ensures out == if projectionsPerRot > 1 then Repeated(theta, projectionsPerRot) else theta
  {
    moves, triggers := [], [];
    var k := 0;
    while k < |theta|
      invariant 0 <= k <= |theta|
      invariant moves == theta[..k] && |triggers| == k
      invariant forall j :: 0 <= j < k ==> triggers[j] == TriggersPerAngle(recursiveFilter, filterImages, projectionsPerRot)
    {
      moves := moves + [theta[k]];
      var n := 0;
      if recursiveFilter {
        var i := 0;
        while i < filterImages
          invariant 0 <= i <= (if filterImages > 0 then filterImages else 0) && n == i
        {
          n := n + 1;
          i := i + 1;
        }
      } else if projectionsPerRot > 1 {
        var j := 0;
        while j < projectionsPerRot
          invariant 0 <= j <= projectionsPerRot && n == j
        {
          n := n + 1;
          j := j + 1;
        }
      } else {
        n := 1;
      }
      triggers := triggers + [n];
      k := k + 1;
    }
    assert theta[..k] == theta;
    out := theta;
    if projectionsPerRot > 1 {
      out := UpdateThetaForMoreProj(theta, projectionsPerRot);
    }
  }
}
