/**
 * The energy-sweep acquisition scripts, as the sequence of instrument calls
 * each one makes (what a recording stand-in for the TXM sees):
 *  - `run_energy_scan` and `_capture_energy_frames` of aps_32id/run/energy_scan.py,
 *  - `energy_scan` of aps_32id/run/energy_scan_new.py,
 *  - `energy_scan` of tomo/32id/energy_scan.py.
 *
 * All three visit the energies in order; at each one the sample and the
 * white field are captured, the sample first at even indices and the white
 * field first at odd ones. Only the first energy of a sweep corrects the
 * gap backlash. The tomo revision moves the sample back inside a blocking
 * `wait_pvs` scope.
 */
module EnergyScan {
  import opened Common

  /** The argument tuple `move_sample(*pos)` is called with. */
  type Position = seq<Value>

  /** One call a script makes on the instrument. */
  datatype Call =
    | NewTxm(hasPermit: bool, useShutterA: bool, useShutterB: bool)
    | BeginRunScan
    | EndRunScan
    | SetupDetector(exposure: real)
    | SetupHdfWriter(numProjections: int, numRecursiveImages: int)
    | OpenShutters
    | CloseShutters
    | MoveSample(pos: Position)
    | MoveEnergy(energy: real, constantMag: bool, correctBacklash: bool)
    | BeginWaitPvs
    | EndWaitPvs
    | CaptureProjections(n: int)
    | CaptureWhiteField(n: int)
    | CaptureDarkField(n: int)
    | SaveEnergies(energies: seq<real>)

  /** The arguments the three scripts share. */
  datatype ScanArgs = ScanArgs(energies: seq<real>, exposure: real, nPreDark: int, samplePos: Position, outPos: Position,
                               constantMag: bool, numRecursiveImages: int)

  /** How a script ended: the calls it made, its warnings, and how it returned. */
  datatype ScanResult = ScanResult(calls: seq<Call>, warned: seq<Warning>, status: Status)

  /** `sample_first = not bool(idx % 2)`. */
  predicate SampleFirst(idx: nat) {
    idx % 2 == 0
  }

  /** The calls of `body`, inside a blocking `wait_pvs` scope when `scoped`. */
  function Scope(scoped: bool, body: seq<Call>): seq<Call> {
    if scoped then [BeginWaitPvs] + body + [EndWaitPvs] else body
  }

  /** Where the first capture at index `idx` is taken, and where the second. */
  function FirstPos(a: ScanArgs, idx: nat): Position {
    if SampleFirst(idx) then a.samplePos else a.outPos
  }

  function SecondPos(a: ScanArgs, idx: nat): Position {
    if SampleFirst(idx) then a.outPos else a.samplePos
  }

  /** The first capture at index `idx`, and the second. */
  function FirstCapture(a: ScanArgs, idx: nat): Call {
    if SampleFirst(idx) then CaptureProjections(a.numRecursiveImages) else CaptureWhiteField(a.numRecursiveImages)
  }

  function SecondCapture(a: ScanArgs, idx: nat): Call {
    if SampleFirst(idx) then CaptureWhiteField(a.numRecursiveImages) else CaptureProjections(a.numRecursiveImages)
  }

  /**
   * The calls at energy index `idx`: move to the first position, move the
   * energy (correcting backlash at index 0 only), capture there, move to
   * the other position, capture there.
   */
  function Pass(a: ScanArgs, idx: nat, scoped: bool): seq<Call>
    requires idx < |a.energies|
  {
    [MoveSample(FirstPos(a, idx)), MoveEnergy(a.energies[idx], a.constantMag, idx == 0), FirstCapture(a, idx)]
    + Scope(scoped, [MoveSample(SecondPos(a, idx))]) + [SecondCapture(a, idx)]
  }

  /** The number of calls in one pass. */
  function PassLength(scoped: bool): nat {
    if scoped then 7 else 5
  }

  /** The passes of the first `k` energies, in order. */
  function Frames(a: ScanArgs, scoped: bool, k: nat): seq<Call>
    requires k <= |a.energies|
  {
    if k == 0 then [] else Frames(a, scoped, k - 1) + Pass(a, k - 1, scoped)
  }

  /**
   * `_capture_energy_frames` (and the energy loops of the other two
   * scripts): a loop over the energies with a `correct_backlash` flag that
   * starts True and is cleared after the first `move_energy`.
   */
  method CaptureEnergyFrames(a: ScanArgs, scoped: bool) returns (calls: seq<Call>)
    ensures calls == Frames(a, scoped, |a.energies|)
  {
    calls := [];
    var correctBacklash := true;
    var idx := 0;
    while idx < |a.energies|
      invariant 0 <= idx <= |a.energies|
      invariant correctBacklash == (idx == 0)
      invariant calls == Frames(a, scoped, idx)
    {
      var energy := a.energies[idx];
      var sampleFirst := idx % 2 == 0;
      var n := a.numRecursiveImages;
      var pass: seq<Call>;
      var reposition: seq<Call>;
      if sampleFirst {
        pass := [MoveSample(a.samplePos), MoveEnergy(energy, a.constantMag, correctBacklash), CaptureProjections(n)];
        reposition := [MoveSample(a.outPos)];
      } else {
        pass := [MoveSample(a.outPos), MoveEnergy(energy, a.constantMag, correctBacklash), CaptureWhiteField(n)];
        reposition := [MoveSample(a.samplePos)];
      }
      assert pass == [MoveSample(FirstPos(a, idx)), MoveEnergy(a.energies[idx], a.constantMag, idx == 0), FirstCapture(a, idx)];
      assert reposition == [MoveSample(SecondPos(a, idx))];
      correctBacklash := false;
      if scoped {
        reposition := [BeginWaitPvs] + reposition + [EndWaitPvs];
      }
      assert reposition == Scope(scoped, [MoveSample(SecondPos(a, idx))]);
      pass := pass + reposition + [if sampleFirst then CaptureWhiteField(n) else CaptureProjections(n)];
      assert pass == Pass(a, idx, scoped);
      assert Frames(a, scoped, idx + 1) == calls + pass;
      calls := calls + pass;
      idx := idx + 1;
    }
  }

  lemma PassShape(a: ScanArgs, idx: nat, scoped: bool)
    requires idx < |a.energies|
    ensures |Pass(a, idx, scoped)| == PassLength(scoped)
  {
  }

  /** `k * m`, written as k copies of m added up, so that proofs about it stay linear. */
  function Times(k: nat, m: int): int {
    if k == 0 then 0 else Times(k - 1, m) + m
  }

  lemma {:induction false} TimesIsProduct(k: nat, m: int)
    ensures Times(k, m) == k * m
  {
    if k > 0 {
      TimesIsProduct(k - 1, m);
      assert k * m == (k - 1) * m + m;
    }
  }

  lemma {:induction false} FramesLength(a: ScanArgs, scoped: bool, k: nat)
    requires k <= |a.energies|
    ensures |Frames(a, scoped, k)| == Times(k, PassLength(scoped))
  {
    if k > 0 {
      FramesLength(a, scoped, k - 1);
      PassShape(a, k - 1, scoped);
    }
  }

  /** The passes of the first `j` energies are where those of the first `k` start. */
  lemma {:induction false} FramesPrefix(a: ScanArgs, scoped: bool, j: nat, k: nat)
    requires j <= k <= |a.energies|
    ensures IsPrefix(Frames(a, scoped, j), Frames(a, scoped, k))
    decreases k
  {
    if j < k {
      FramesPrefix(a, scoped, j, k - 1);
      PrefixOfAppend(Frames(a, scoped, j), Frames(a, scoped, k - 1), Pass(a, k - 1, scoped));
    }
  }

  /**
   * The calls of a sweep are its passes back to back: with L calls per
   * pass, the pass of energy index `idx` occupies positions idx * L up to
   * (idx + 1) * L (`Times(i, L)` is i * L, by `TimesIsProduct`).
   */
  lemma FramesLayout(a: ScanArgs, scoped: bool, k: nat, idx: nat)
    requires idx < k <= |a.energies|
    ensures var l := PassLength(scoped);
            && |Frames(a, scoped, k)| == Times(k, l)
            && 0 <= Times(idx, l) <= Times(idx + 1, l) <= Times(k, l)
            && Frames(a, scoped, k)[Times(idx, l)..Times(idx + 1, l)] == Pass(a, idx, scoped)
  {
    var f, g, h := Frames(a, scoped, k), Frames(a, scoped, idx + 1), Frames(a, scoped, idx);
    FramesLength(a, scoped, k);
    FramesLength(a, scoped, idx + 1);
    FramesLength(a, scoped, idx);
    FramesPrefix(a, scoped, idx + 1, k);
    assert g == h + Pass(a, idx, scoped);
    assert f[|h|..|g|] == g[|h|..];
  }

  /**
   * The order within a pass: at an even index the sample position and the
   * projection come first and the white field second; at an odd index the
   * reverse. Each capture follows the move to its own position, and in the
   * scoped revision that second move is the whole of a `wait_pvs` scope.
   */
  lemma PassOrder(a: ScanArgs, idx: nat, scoped: bool)
    requires idx < |a.energies|
    ensures var p := Pass(a, idx, scoped);
            var n := a.numRecursiveImages;
            var l := PassLength(scoped);
            var second := if scoped then 4 else 3;
            && |p| == l
            && p[1] == MoveEnergy(a.energies[idx], a.constantMag, idx == 0)
            && (SampleFirst(idx) ==> p[0] == MoveSample(a.samplePos) && p[2] == CaptureProjections(n)
                                     && p[second] == MoveSample(a.outPos) && p[l - 1] == CaptureWhiteField(n))
            && (!SampleFirst(idx) ==> p[0] == MoveSample(a.outPos) && p[2] == CaptureWhiteField(n)
                                      && p[second] == MoveSample(a.samplePos) && p[l - 1] == CaptureProjections(n))
            && (scoped ==> p[3] == BeginWaitPvs && p[5] == EndWaitPvs)
  {
  }

  /** The energy moves among some calls, in order. */
  function EnergyMoves(calls: seq<Call>): seq<Call>
    decreases |calls|
  {
    if calls == [] then []
    else EnergyMoves(calls[..|calls| - 1]) + (if calls[|calls| - 1].MoveEnergy? then [calls[|calls| - 1]] else [])
  }

  /** The frames one call captures. */
  function FramesOf(c: Call): int {
    match c
    case CaptureProjections(n) => n
    case CaptureWhiteField(n) => n
    case CaptureDarkField(n) => n
    case _ => 0
  }

  /** The number of frames some calls capture. */
  function Captured(calls: seq<Call>): int
    decreases |calls|
  {
    if calls == [] then 0 else Captured(calls[..|calls| - 1]) + FramesOf(calls[|calls| - 1])
  }

  lemma {:induction false} EnergyMovesAppend(s: seq<Call>, t: seq<Call>)
    ensures EnergyMoves(s + t) == EnergyMoves(s) + EnergyMoves(t)
    decreases |t|
  {
    if t == [] {
      assert s + t == s;
    } else {
      var init := t[..|t| - 1];
      assert s + t == (s + init) + [t[|t| - 1]];
      assert (s + t)[..|s + t| - 1] == s + init;
      EnergyMovesAppend(s, init);
      AppendAssoc(EnergyMoves(s), EnergyMoves(init), if t[|t| - 1].MoveEnergy? then [t[|t| - 1]] else []);
    }
  }

  lemma {:induction false} CapturedAppend(s: seq<Call>, t: seq<Call>)
    ensures Captured(s + t) == Captured(s) + Captured(t)
    decreases |t|
  {
    if t == [] {
      assert s + t == s;
    } else {
      var init := t[..|t| - 1];
      assert s + t == (s + init) + [t[|t| - 1]];
      assert (s + t)[..|s + t| - 1] == s + init;
      CapturedAppend(s, init);
    }
  }

  lemma CountsOne(c: Call)
    ensures EnergyMoves([c]) == if c.MoveEnergy? then [c] else []
    ensures Captured([c]) == FramesOf(c)
  {
    assert [c][..0] == [];
  }

  lemma CountsThree(x: Call, y: Call, z: Call)
    ensures EnergyMoves([x, y, z]) == EnergyMoves([x]) + EnergyMoves([y]) + EnergyMoves([z])
    ensures Captured([x, y, z]) == FramesOf(x) + FramesOf(y) + FramesOf(z)
  {
    assert [x, y, z] == [x] + [y] + [z];
    EnergyMovesAppend([x] + [y], [z]);
    EnergyMovesAppend([x], [y]);
    CapturedAppend([x] + [y], [z]);
    CapturedAppend([x], [y]);
    CountsOne(x);
    CountsOne(y);
    CountsOne(z);
  }

  /** One pass moves the energy once and captures twice `numRecursiveImages` frames. */
  lemma PassCounts(a: ScanArgs, idx: nat, scoped: bool)
    requires idx < |a.energies|
    ensures EnergyMoves(Pass(a, idx, scoped)) == [MoveEnergy(a.energies[idx], a.constantMag, idx == 0)]
    ensures Captured(Pass(a, idx, scoped)) == 2 * a.numRecursiveImages
  {
    var m := MoveEnergy(a.energies[idx], a.constantMag, idx == 0);
    var h := [MoveSample(FirstPos(a, idx)), m, FirstCapture(a, idx)];
    var back := MoveSample(SecondPos(a, idx));
    var sc := Scope(scoped, [back]);
    var last := SecondCapture(a, idx);
    EnergyMovesAppend(h + sc, [last]);
    EnergyMovesAppend(h, sc);
    CapturedAppend(h + sc, [last]);
    CapturedAppend(h, sc);
    CountsThree(h[0], m, h[2]);
    CountsOne(h[0]);
    CountsOne(m);
    CountsOne(h[2]);
    CountsOne(last);
    CountsOne(back);
    if scoped {
      assert sc == [BeginWaitPvs, back, EndWaitPvs];
      CountsThree(BeginWaitPvs, back, EndWaitPvs);
      CountsOne(BeginWaitPvs);
      CountsOne(EndWaitPvs);
    }
  }

  /** The energy moves of a sweep's first `k` passes. */
  function SweepMoves(a: ScanArgs, k: nat): seq<Call>
    requires k <= |a.energies|
  {
    seq(k, i requires 0 <= i < k => MoveEnergy(a.energies[i], a.constantMag, i == 0))
  }

  lemma SweepMovesSnoc(a: ScanArgs, k: nat)
    requires 0 < k <= |a.energies|
    ensures SweepMoves(a, k) == SweepMoves(a, k - 1) + [MoveEnergy(a.energies[k - 1], a.constantMag, k - 1 == 0)]
  {
    var s, t := SweepMoves(a, k), SweepMoves(a, k - 1) + [MoveEnergy(a.energies[k - 1], a.constantMag, k - 1 == 0)];
    assert |s| == |t|;
    forall i | 0 <= i < |s|
      ensures s[i] == t[i]
    {
      if i < k - 1 {
        assert t[i] == SweepMoves(a, k - 1)[i];
      }
    }
  }

  /**
   * A sweep moves to every energy once, in the order given, and only the
   * first move corrects the backlash; it captures two frames' worth of
   * `numRecursiveImages` per energy.
   */
  lemma {:induction false} SweepCounts(a: ScanArgs, scoped: bool, k: nat)
    requires k <= |a.energies|
    ensures EnergyMoves(Frames(a, scoped, k)) == SweepMoves(a, k)
    ensures Captured(Frames(a, scoped, k)) == Times(k, 2 * a.numRecursiveImages)
  {
    if k > 0 {
      SweepCounts(a, scoped, k - 1);
      SweepStep(a, scoped, k);
      SweepMovesSnoc(a, k);
      assert Times(k, 2 * a.numRecursiveImages) == Times(k - 1, 2 * a.numRecursiveImages) + 2 * a.numRecursiveImages;
    }
  }

  /** One more pass adds its energy move and its two captures to a sweep. */
  lemma SweepStep(a: ScanArgs, scoped: bool, k: nat)
    requires 0 < k <= |a.energies|
    ensures EnergyMoves(Frames(a, scoped, k))
            == EnergyMoves(Frames(a, scoped, k - 1)) + [MoveEnergy(a.energies[k - 1], a.constantMag, k - 1 == 0)]
    ensures Captured(Frames(a, scoped, k)) == Captured(Frames(a, scoped, k - 1)) + 2 * a.numRecursiveImages
  {
    var f, p := Frames(a, scoped, k - 1), Pass(a, k - 1, scoped);
    assert Frames(a, scoped, k) == f + p;
    PassCounts(a, k - 1, scoped);
    EnergyMovesAppend(f, p);
    CapturedAppend(f, p);
  }

  /** `total_projections = n_pre_dark + 2 * len(energies)`. */
  function TotalProjections(a: ScanArgs): int {
    a.nPreDark + 2 * |a.energies|
  }

  /** The pre-dark block: only when `n_pre_dark > 0`, the shutters closed first. */
  function PreDark(a: ScanArgs): seq<Call> {
    if a.nPreDark > 0 then [CloseShutters, CaptureDarkField(a.nPreDark * a.numRecursiveImages)] else []
  }

  /**
   * What every script does once the HDF writer is set up: the pre-dark
   * block, the shutters opened, the sweep, the shutters closed.
   */
  function Acquisition(a: ScanArgs, scoped: bool): seq<Call> {
    PreDark(a) + [OpenShutters] + Frames(a, scoped, |a.energies|) + [CloseShutters]
  }

  /** The calls of one repetition of `run_energy_scan`. */
  function Repetition(a: ScanArgs): seq<Call> {
    [SetupHdfWriter(TotalProjections(a), a.numRecursiveImages)] + Acquisition(a, false)
  }

  /**
   * An acquisition captures `numRecursiveImages` frames for each of the
   * `total_projections` the writer was told about, when `n_pre_dark` is
   * not negative.
   */
  lemma AcquisitionCaptured(a: ScanArgs, scoped: bool)
    ensures a.nPreDark >= 0 ==> Captured(Acquisition(a, scoped)) == a.numRecursiveImages * TotalProjections(a)
  {
    var d, f := PreDark(a), Frames(a, scoped, |a.energies|);
    var sweep := [OpenShutters] + f + [CloseShutters];
    AcquisitionSplit(a, scoped);
    SweepCounts(a, scoped, |a.energies|);
    CountsOne(OpenShutters);
    CountsOne(CloseShutters);
    CapturedAppend([OpenShutters], f);
    assert Captured([OpenShutters] + f) == Captured(f);
    CapturedAppend([OpenShutters] + f, [CloseShutters]);
    assert Captured(sweep) == Captured(f);
    CapturedAppend(d, sweep);
    PreDarkCaptured(a);
    if a.nPreDark >= 0 {
      ScaleTotal(a);
    }
  }

  lemma AcquisitionSplit(a: ScanArgs, scoped: bool)
    ensures Acquisition(a, scoped) == PreDark(a) + ([OpenShutters] + Frames(a, scoped, |a.energies|) + [CloseShutters])
  {
  }

  lemma PreDarkCaptured(a: ScanArgs)
    ensures Captured(PreDark(a)) == if a.nPreDark > 0 then a.nPreDark * a.numRecursiveImages else 0
  {
    if a.nPreDark > 0 {
      var c := CaptureDarkField(a.nPreDark * a.numRecursiveImages);
      assert PreDark(a) == [CloseShutters] + [c];
      CapturedAppend([CloseShutters], [c]);
      CountsOne(CloseShutters);
      CountsOne(c);
    }
  }

  lemma ScaleTotal(a: ScanArgs)
    requires a.nPreDark >= 0
    ensures (if a.nPreDark > 0 then a.nPreDark * a.numRecursiveImages else 0) + Times(|a.energies|, 2 * a.numRecursiveImages)
            == a.numRecursiveImages * TotalProjections(a)
  {
    TimesIsProduct(|a.energies|, 2 * a.numRecursiveImages);
    Distribute(a.numRecursiveImages, a.nPreDark, |a.energies|);
  }

  /** The energy moves of an acquisition are those of one sweep. */
  lemma AcquisitionMoves(a: ScanArgs, scoped: bool)
    ensures EnergyMoves(Acquisition(a, scoped)) == SweepMoves(a, |a.energies|)
  {
    var d, f := PreDark(a), Frames(a, scoped, |a.energies|);
    AcquisitionSplit(a, scoped);
    SweepCounts(a, scoped, |a.energies|);
    EnergyMovesAppend(d, [OpenShutters] + f + [CloseShutters]);
    EnergyMovesAppend([OpenShutters] + f, [CloseShutters]);
    EnergyMovesAppend([OpenShutters], f);
    CountsOne(OpenShutters);
    CountsOne(CloseShutters);
    if a.nPreDark > 0 {
      var c := CaptureDarkField(a.nPreDark * a.numRecursiveImages);
      assert d == [CloseShutters] + [c];
      EnergyMovesAppend([CloseShutters], [c]);
      CountsOne(c);
    }
  }

  /**
   * The shutters are closed before the dark frames, opened before the
   * first pass and closed after the last.
   */
  lemma AcquisitionLayout(a: ScanArgs, scoped: bool)
    ensures var acq := Acquisition(a, scoped);
            var start := |PreDark(a)|;
            && acq[start] == OpenShutters && acq[|acq| - 1] == CloseShutters
            && acq[start + 1..|acq| - 1] == Frames(a, scoped, |a.energies|)
            && (a.nPreDark > 0 <==> start == 2)
            && (a.nPreDark > 0 ==> acq[0] == CloseShutters && acq[1] == CaptureDarkField(a.nPreDark * a.numRecursiveImages))
  {
    AcquisitionSplit(a, scoped);
  }

  lemma Distribute(m: int, p: int, k: int)
    ensures m * (p + 2 * k) == p * m + k * (2 * m)
  {
  }

  /** `n` repetitions one after another. */
  function Repetitions(a: ScanArgs, n: nat): seq<Call> {
    if n == 0 then [] else Repetitions(a, n - 1) + Repetition(a)
  }

  /** `n` copies of `s`, one after another. */
  function Repeat<T>(s: seq<T>, n: nat): seq<T> {
    if n == 0 then [] else Repeat(s, n - 1) + s
  }

  /**
   * Every repetition is a fresh sweep: its first energy corrects the
   * backlash again; each one announces `total_projections` to the writer
   * and captures `numRecursiveImages` times that many frames.
   */
  lemma RepetitionCounts(a: ScanArgs)
    ensures EnergyMoves(Repetition(a)) == SweepMoves(a, |a.energies|)
    ensures a.nPreDark >= 0 ==> Captured(Repetition(a)) == a.numRecursiveImages * TotalProjections(a)
  {
    var h := [SetupHdfWriter(TotalProjections(a), a.numRecursiveImages)];
    AcquisitionCaptured(a, false);
    AcquisitionMoves(a, false);
    EnergyMovesAppend(h, Acquisition(a, false));
    CapturedAppend(h, Acquisition(a, false));
    CountsOne(h[0]);
  }

  lemma {:induction false} RepetitionsMoves(a: ScanArgs, n: nat)
    ensures EnergyMoves(Repetitions(a, n)) == Repeat(SweepMoves(a, |a.energies|), n)
  {
    if n > 0 {
      RepetitionsMoves(a, n - 1);
      RepetitionCounts(a);
      EnergyMovesAppend(Repetitions(a, n - 1), Repetition(a));
    }
  }

  lemma {:induction false} RepetitionsCaptured(a: ScanArgs, n: nat)
    requires a.nPreDark >= 0
    ensures Captured(Repetitions(a, n)) == Times(n, a.numRecursiveImages * TotalProjections(a))
  {
    if n > 0 {
      RepetitionsCaptured(a, n - 1);
      RepetitionCounts(a);
      CapturedAppend(Repetitions(a, n - 1), Repetition(a));
    }
  }

  /**
   * `run_energy_scan(energies, ..., repetitions, txm)` of
   * aps_32id/run/energy_scan.py. Without a `txm` it builds a
   * NanoTXM(has_permit, use_shutter_A=False, use_shutter_B=True). Inside
   * `run_scan` it sets up the detector and runs the repetitions; then it
   * writes the energies through `hdf_file`, which opens the detector's
   * current `hdf_filename` whatever name it is passed, an OSError
   * (`saveFails`) becoming a warning. The name passed is the one read in
   * the last repetition; with no repetition it was never bound, and
   * passing it raises UnboundLocalError (a NameError), which the handler
   * does not catch.
   */
  method RunEnergyScan(a: ScanArgs, hasPermit: bool, repetitions: int, txmGiven: bool, saveFails: bool)
    returns (r: ScanResult)
    ensures var head := (if txmGiven then [] else [NewTxm(hasPermit, false, true)]) + [BeginRunScan, SetupDetector(a.exposure)];
            var n := if repetitions > 0 then repetitions else 0;
            && (repetitions > 0 ==> r == ScanResult(head + Repetitions(a, n) + [EndRunScan, SaveEnergies(a.energies)],
                                                    if saveFails then [EnergiesNotSaved] else [], Done))
            && (repetitions <= 0 ==> r == ScanResult(head + [EndRunScan], [], Raised(NameError)))
  {
    var calls: seq<Call> := [];
    if !txmGiven {
      calls := calls + [NewTxm(hasPermit, false, true)];
    }
    calls := calls + [BeginRunScan, SetupDetector(a.exposure)];
    ghost var head := calls;
    var rep := 0;
    while rep < repetitions
      invariant 0 <= rep && (repetitions > 0 ==> rep <= repetitions)
      invariant repetitions <= 0 ==> rep == 0
      invariant calls == head + Repetitions(a, rep)
    {
      var frames := CaptureEnergyFrames(a, false);
      var repetition := [SetupHdfWriter(TotalProjections(a), a.numRecursiveImages)]
                        + (PreDark(a) + [OpenShutters] + frames + [CloseShutters]);
      assert repetition == Repetition(a);
      AppendAssoc(head, Repetitions(a, rep), repetition);
      calls := calls + repetition;
      rep := rep + 1;
    }
    calls := calls + [EndRunScan];
    if rep == 0 {
      return ScanResult(calls, [], Raised(NameError));
    }
    calls := calls + [SaveEnergies(a.energies)];
    r := ScanResult(calls, if saveFails then [EnergiesNotSaved] else [], Done);
  }

  /** `SHUTTER_PERMIT` of aps_32id/run/energy_scan_new.py. */
  const ShutterPermitNew: bool := true

  /**
   * `energy_scan(energies, ..., has_permit, txm)` of
   * aps_32id/run/energy_scan_new.py: it asserts that it has no permit;
   * without a `txm` it passes `ioc_prefix` to NanoTXM, whose constructor
   * does not take one (TypeError). Otherwise one acquisition, an OSError
   * on the energy write becoming a warning, and no `run_scan` around it.
   */
  method EnergyScanNew(a: ScanArgs, hasPermit: bool, txmGiven: bool, saveFails: bool) returns (r: ScanResult)
    ensures hasPermit ==> r == ScanResult([], [], Raised(AssertionError))
    ensures !hasPermit && !txmGiven ==> r == ScanResult([], [], Raised(TypeError))
    ensures !hasPermit && txmGiven ==>
              r == ScanResult([SetupDetector(a.exposure), SetupHdfWriter(TotalProjections(a), a.numRecursiveImages)]
                              + Acquisition(a, false) + [SaveEnergies(a.energies)],
                              if saveFails then [EnergiesNotSaved] else [], Done)
  {
    if hasPermit {
      return ScanResult([], [], Raised(AssertionError));
    }
    if !txmGiven {
      return ScanResult([], [], Raised(TypeError));
    }
    var calls := [SetupDetector(a.exposure), SetupHdfWriter(TotalProjections(a), a.numRecursiveImages)];
    calls := calls + PreDark(a) + [OpenShutters];
    var frames := CaptureEnergyFrames(a, false);
    calls := calls + frames + [CloseShutters];
    calls := calls + [SaveEnergies(a.energies)];
    r := ScanResult(calls, if saveFails then [EnergiesNotSaved] else [], Done);
  }

  /**
   * The scan `main` of aps_32id/run/energy_scan_new.py starts: it passes
   * `SHUTTER_PERMIT`, which is True, and no `txm`, so the script stops at
   * its own assertion before touching the instrument.
   */
  method EnergyScanNewMain(a: ScanArgs, saveFails: bool) returns (r: ScanResult)
    ensures r.calls == [] && r.status == Raised(AssertionError)
  {
    r := EnergyScanNew(a, ShutterPermitNew, false, saveFails);
  }

  /**
   * `energy_scan` of tomo/32id/energy_scan.py as written: it builds
   * `TXM(is_attached=..., ...)`, and the TXM constructor takes no
   * `is_attached`, so the call raises TypeError before any other.
   */
  method TomoEnergyScan(a: ScanArgs, isAttached: bool, hasPermit: bool, saveFails: bool) returns (r: ScanResult)
    ensures r == ScanResult([], [], Raised(TypeError))
  {
    r := ScanResult([], [], Raised(TypeError));
  }

  /**
   * The same `energy_scan` with the constructor call it evidently means
   * (`TXM(has_permit, ioc_prefix, use_shutter_A=False, use_shutter_B=True)`):
   * one acquisition whose repositioning between the two captures runs in a
   * blocking `wait_pvs` scope; the energy write is not guarded, so an
   * OSError escapes after the shutters are closed.
   */
  method TomoEnergyScanBody(a: ScanArgs, hasPermit: bool, saveFails: bool) returns (r: ScanResult)
    ensures r == ScanResult([NewTxm(hasPermit, false, true), SetupDetector(a.exposure),
                             SetupHdfWriter(TotalProjections(a), a.numRecursiveImages)]
                            + Acquisition(a, true) + [SaveEnergies(a.energies)],
                            [], if saveFails then Raised(OSError) else Done)
  {
    var calls := [NewTxm(hasPermit, false, true), SetupDetector(a.exposure),
                  SetupHdfWriter(TotalProjections(a), a.numRecursiveImages)];
    calls := calls + PreDark(a) + [OpenShutters];
    var frames := CaptureEnergyFrames(a, true);
    calls := calls + frames + [CloseShutters];
    calls := calls + [SaveEnergies(a.energies)];
    r := ScanResult(calls, [], if saveFails then Raised(OSError) else Done);
  }
}
