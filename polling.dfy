/**
 * The bounded poll-until-value loop shared by every `wait_pv` of the code
 * base (aps_32id/txm.py, tomo/32id/txm.py and both copies of
 * tomo_scan_lib.py).
 *
 * Each `wait_pv` sleeps once, notes the start time, then reads the PV over
 * and over: a read equal to the target ends the wait; otherwise, when the
 * timeout is above -1 and the time since the start has reached it, the wait
 * gives up; otherwise it sleeps one poll interval and reads again. Time is
 * modelled by counting reads: read j (from 0) happens j poll intervals after
 * the start. The values the PV shows are a finite sequence supplied by the
 * environment; a wait that has neither matched nor given up when they run
 * out is reported as Exhausted (the program would still be polling).
 */
module Polling {
  import opened Common

  /** Seconds between two reads (`POLL_INTERVAL` and the literal `.01` sleeps). */
  const PollInterval: real := 0.01

  /** How a poll ended; `count` counts the reads made. */
  datatype Poll = Matched(count: nat) | TimedOut(count: nat) | Exhausted

  /** The time since the start when read `j` is compared with the target. */
  function Elapsed(j: nat): real {
    j as real * PollInterval
  }

  /** Whether read `j`, if it does not match, makes the wait give up. */
  predicate GivesUp(timeout: real, j: nat) {
    timeout > -1.0 && Elapsed(j) >= timeout
  }

  /** The poll from read `j` onwards. */
  function PollFrom(readings: seq<Value>, target: Value, timeout: real, j: nat): Poll
    requires j <= |readings|
    decreases |readings| - j
  {
    if j == |readings| then Exhausted
    else if readings[j] == target then Matched(j + 1)
    else if GivesUp(timeout, j) then TimedOut(j + 1)
    else PollFrom(readings, target, timeout, j + 1)
  }

  /** The poll of a whole `wait_pv`. */
  function PollOf(readings: seq<Value>, target: Value, timeout: real): Poll {
    PollFrom(readings, target, timeout, 0)
  }

  /** The polling while-loop itself. */
  method PollUntil(readings: seq<Value>, target: Value, timeout: real) returns (p: Poll)
    ensures p == PollOf(readings, target, timeout)
  {
    var j := 0;
    while j < |readings|
      invariant 0 <= j <= |readings|
      invariant PollFrom(readings, target, timeout, j) == PollOf(readings, target, timeout)
    {
      if readings[j] == target {
        return Matched(j + 1);
      }
      if GivesUp(timeout, j) {
        return TimedOut(j + 1);
      }
      j := j + 1;
    }
    return Exhausted;
  }

  /** Reads `j` up to (not including) `k` neither matched nor gave up. */
  predicate KeptPolling(readings: seq<Value>, target: Value, timeout: real, j: nat, k: nat)
    requires j <= k <= |readings|
  {
    forall i :: j <= i < k ==> readings[i] != target && !GivesUp(timeout, i)
  }

  lemma {:induction false} PollFromCharacterised(readings: seq<Value>, target: Value, timeout: real, j: nat)
    requires j <= |readings|
    ensures var p := PollFrom(readings, target, timeout, j);
            && (p.Matched? ==> j < p.count <= |readings| && readings[p.count - 1] == target
                               && KeptPolling(readings, target, timeout, j, p.count - 1))
            && (p.TimedOut? ==> j < p.count <= |readings| && readings[p.count - 1] != target
                                && GivesUp(timeout, p.count - 1)
                                && KeptPolling(readings, target, timeout, j, p.count - 1))
            && (p.Exhausted? ==> KeptPolling(readings, target, timeout, j, |readings|))
    decreases |readings| - j
  {
    if j < |readings| && readings[j] != target && !GivesUp(timeout, j) {
      PollFromCharacterised(readings, target, timeout, j + 1);
    }
  }

  /**
   * The wait ends on the first read that equals the target, unless an
   * earlier read gave up; it gives up on the first non-matching read whose
   * elapsed time has reached a timeout above -1; it reports Exhausted only
   * when no read did either.
   */
  lemma PollCharacterised(readings: seq<Value>, target: Value, timeout: real)
    ensures var p := PollOf(readings, target, timeout);
            && (p.Matched? ==> 0 < p.count <= |readings| && readings[p.count - 1] == target
                               && KeptPolling(readings, target, timeout, 0, p.count - 1))
            && (p.TimedOut? ==> 0 < p.count <= |readings| && readings[p.count - 1] != target
                                && GivesUp(timeout, p.count - 1)
                                && KeptPolling(readings, target, timeout, 0, p.count - 1))
            && (p.Exhausted? ==> KeptPolling(readings, target, timeout, 0, |readings|))
  {
    PollFromCharacterised(readings, target, timeout, 0);
  }

  /** With a timeout of -1 or less the wait never gives up. */
  lemma NoTimeoutNeverGivesUp(readings: seq<Value>, target: Value, timeout: real)
    requires timeout <= -1.0
    ensures !PollOf(readings, target, timeout).TimedOut?
  {
    PollCharacterised(readings, target, timeout);
  }

  /**
   * A wait that gives up does so once the timeout has elapsed and less than
   * one poll interval after it (or at the first read, for a timeout of at
   * most zero).
   */
  lemma TimeoutIsPrompt(readings: seq<Value>, target: Value, timeout: real)
    requires PollOf(readings, target, timeout).TimedOut?
    ensures var k := PollOf(readings, target, timeout).count;
            && k >= 1 && timeout > -1.0
            && Elapsed(k - 1) >= timeout
            && (timeout > 0.0 ==> Elapsed(k - 1) < timeout + PollInterval)
  {
    PollCharacterised(readings, target, timeout);
    var k := PollOf(readings, target, timeout).count;
    if timeout > 0.0 && k >= 2 {
      assert !GivesUp(timeout, k - 2);
      assert Elapsed(k - 1) == Elapsed(k - 2) + PollInterval;
    }
  }

  /** Enough readings to cover the timeout: the wait is decided within them. */
  lemma EnoughReadingsDecide(readings: seq<Value>, target: Value, timeout: real)
    requires timeout > -1.0 && |readings| > 0 && Elapsed(|readings| - 1) >= timeout
    ensures !PollOf(readings, target, timeout).Exhausted?
  {
    PollCharacterised(readings, target, timeout);
    assert GivesUp(timeout, |readings| - 1);
  }

  /** A PV that already shows the target ends the wait at the first read. */
  lemma ImmediateMatch(readings: seq<Value>, target: Value, timeout: real)
    requires |readings| > 0 && readings[0] == target
    ensures PollOf(readings, target, timeout) == Matched(1)
  {
  }
}
