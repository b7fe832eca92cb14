/**
 * The older `TXM` class of tomo/32id/txm.py, with the descriptor of
 * tomo/32id/txm_pv.py it declares its PVs with, run against the in-memory
 * device of the `Device` module.
 *
 * This revision differs from the newer NanoTXM where it matters here:
 *  - a failed write raises PVError instead of warning;
 *  - `wait_pv` raises TimeoutError, and KeyError for a name that is not a
 *    class attribute, instead of warning;
 *  - a queued put always appends a fresh promise, keeping earlier ones for
 *    the same PV;
 *  - `move_energy` waits on `EnergyWait` after each gap write and has no
 *    guarded arithmetic;
 *  - `move_energy`, `open_shutters` and `close_shutters` are wrapped by a
 *    `permit_required` that does call them when the permit is held.
 *
 * An operation that makes several assignments and waits is described by
 * the list of those steps (`Step`), run in order until one raises or a
 * wait runs out of readings (`RunSteps`).
 */
module TomoTxmModel {
  import opened Common
  import opened PvDescriptor
  import opened Polling
  import opened Device
  import opened Promises
  import opened Frames

  /** `DEFAULT_TIMEOUT`, the timeout of `wait_pv` in seconds. */
  const DefaultTimeout: real := 20.0
  /** `TXM.gap_offset`, added to the undulator gap setting. */
  const GapOffset: real := 0.15
  /** `E_RANGE`, in keV. */
  const EnergyLow: real := 6.4
  const EnergyHigh: real := 30.0
  /** `SHUTTER_OPEN` and `SHUTTER_CLOSED`. */
  const ShutterOpen: Value := VNum(0.0)
  const ShutterClosed: Value := VNum(1.0)

  // The descriptors the modelled operations write or read.
  const ZonePlateZ: Descriptor := Fixed("32idcTXM:mcs:c2:m3.VAL", Untyped, false, true)
  const CcdMotor: Descriptor := Fixed("32idcTXM:mxv:c1:m6.VAL", Float, false, true)
  const ShutterAOpen: Descriptor := Fixed("32idb:rshtrA:Open", Untyped, true, true)
  const ShutterAClose: Descriptor := Fixed("32idb:rshtrA:Close", Untyped, true, true)
  const ShutterBOpen: Descriptor := Fixed("32idb:fbShutter:Open.PROC", Untyped, true, true)
  const ShutterBClose: Descriptor := Fixed("32idb:fbShutter:Close.PROC", Untyped, true, true)
  const DcmMvt: Descriptor := Fixed("32ida:KohzuModeBO.VAL", Untyped, true, true)
  const GapPutEnergy: Descriptor := Fixed("32id:ID32us_energy", Untyped, true, false)
  const DcmPutEnergy: Descriptor := Fixed("32ida:BraggEAO.VAL", Float, true, true)
  const Cam1FrameType: Descriptor := OnIoc("cam1:FrameType", Untyped, false, true)

  /**
   * Descriptor attribute names of the class, those that the modelled
   * operations name. `wait_pv` looks its name up in the class dictionary.
   */
  const PvAttributes: set<string> := {
    "ShutterA_Open", "ShutterA_Close", "ShutterA_Move_Status",
    "ShutterB_Open", "ShutterB_Close", "ShutterB_Move_Status",
    "DCMmvt", "GAPputEnergy", "EnergyWait", "DCMputEnergy",
    "zone_plate_z", "CCD_Motor", "Cam1_FrameType", "Cam1_Acquire", "HDF1_Capture"
  }

  /** The status PV `close_shutters` polls for shutter A, as the code spells it. */
  const ShutterAClosedStatus: string := "ShutteA_Move_Status"

  /** The misspelled name is not an attribute of the class: no attribute name is that long. */
  lemma MisspelledStatusUnknown()
    ensures ShutterAClosedStatus !in PvAttributes
  {
    assert forall x :: x in PvAttributes ==> |x| != 19;
  }

  /** `complete_put(data, pvname)` of tomo/32id/txm_pv.py: the promise passed as `data` completes. */
  method CompletePut(data: PvPromise, pvname: string)
    modifies data
    ensures data.isComplete
  {
    data.Complete();
  }

  /** What the steps of an operation depend on besides their own arguments. */
  datatype Setting = Setting(prefix: string, hasPermit: bool, replies: map<string, Reply>, queued: bool)

  /** One step of an operation: an assignment through a descriptor, or a `wait_pv`. */
  datatype Step =
    | Assign(w: Write)
    | Await(name: string, target: Value, timeout: real, readings: seq<Value>)

  /**
   * How `TxmPV.__set__` ends: without a needed permit it only warns;
   * otherwise a falsy `pv_put` result raises PVError and a TypeError from
   * the put escapes.
   */
  function AssignStatus(w: Write, s: Setting): Status {
    if Permitted(w.pv, s.hasPermit) then TomoSetStatus(ReplyTo(s.replies, PvName(w.pv, s.prefix))) else Done
  }

  /** The warning of `__set__`: one, when the permit is needed and missing. */
  function AssignWarnings(w: Write, s: Setting): seq<Warning> {
    if Permitted(w.pv, s.hasPermit) then [] else [NotSetWithoutPermit(PvName(w.pv, s.prefix))]
  }

  /**
   * How `wait_pv(name, target, timeout)` ends: KeyError for a name the
   * class dictionary lacks, True on a match, TimeoutError on giving up.
   */
  function WaitStatus(name: string, target: Value, timeout: real, readings: seq<Value>): Status {
    if name !in PvAttributes then Raised(KeyError)
    else
      match PollOf(readings, target, timeout)
      case Matched(_) => Done
      case TimedOut(_) => Raised(TimeoutError)
      case Exhausted => StillPolling
  }

  function StepStatus(x: Step, s: Setting): Status {
    match x
    case Assign(w) => AssignStatus(w, s)
    case Await(name, target, timeout, readings) => WaitStatus(name, target, timeout, readings)
  }

  function StepPuts(x: Step, s: Setting): seq<Put> {
    match x
    case Assign(w) => SendOf(w, s.prefix, s.hasPermit, s.queued)
    case Await(_, _, _, _) => []
  }

  function StepWarnings(x: Step, s: Setting): seq<Warning> {
    match x
    case Assign(w) => AssignWarnings(w, s)
    case Await(_, _, _, _) => []
  }

  /** How a run of steps ended, the puts it sent and the warnings it issued. */
  datatype Run = Run(status: Status, puts: seq<Put>, warned: seq<Warning>)

  /** The steps in order; the first that does not end normally ends the run. */
  function RunSteps(steps: seq<Step>, s: Setting): Run
    decreases |steps|
  {
    if steps == [] then Run(Done, [], [])
    else
      var r := RunSteps(steps[..|steps| - 1], s);
      var x := steps[|steps| - 1];
      if r.status != Done then r
      else Run(StepStatus(x, s), r.puts + StepPuts(x, s), r.warned + StepWarnings(x, s))
  }

  lemma RunSnoc(steps: seq<Step>, x: Step, s: Setting)
    ensures RunSteps(steps + [x], s)
            == var r := RunSteps(steps, s);
               if r.status != Done then r
               else Run(StepStatus(x, s), r.puts + StepPuts(x, s), r.warned + StepWarnings(x, s))
  {
    assert (steps + [x])[..|steps|] == steps;
  }

  /** One run after another: the second only when the first ended normally. */
  function Then(a: Run, b: Run): Run {
    if a.status != Done then a else Run(b.status, a.puts + b.puts, a.warned + b.warned)
  }

  lemma {:induction false} RunAppend(a: seq<Step>, b: seq<Step>, s: Setting)
    ensures RunSteps(a + b, s) == Then(RunSteps(a, s), RunSteps(b, s))
    decreases |b|
  {
    if b == [] {
      assert a + b == a;
    } else {
      var init := b[..|b| - 1];
      var x := b[|b| - 1];
      assert b == init + [x];
      assert a + b == (a + init) + [x];
      RunSnoc(a + init, x, s);
      RunSnoc(init, x, s);
      RunAppend(a, init, s);
      var ra, ri := RunSteps(a, s), RunSteps(init, s);
      if ra.status == Done && ri.status == Done {
        AppendAssoc(ra.puts, ri.puts, StepPuts(x, s));
        AppendAssoc(ra.warned, ri.warned, StepWarnings(x, s));
      }
    }
  }

  /**
   * A run ends normally exactly when every step does; otherwise it ends
   * with the first step that does not, after which nothing more is sent.
   */
  lemma RunStopsAtFirstFailure(steps: seq<Step>, s: Setting)
    ensures var r := RunSteps(steps, s);
            && (r.status == Done <==> forall j :: 0 <= j < |steps| ==> StepStatus(steps[j], s) == Done)
            && (r.status != Done ==>
                  exists k :: 0 <= k < |steps| && r.status == StepStatus(steps[k], s)
                              && (forall j :: 0 <= j < k ==> StepStatus(steps[j], s) == Done)
                              && r == RunSteps(steps[..k + 1], s))
  {
    RunDoneIffAllDone(steps, s);
    RunFailsAtFirstFailure(steps, s);
  }

  lemma {:induction false} RunDoneIffAllDone(steps: seq<Step>, s: Setting)
    ensures RunSteps(steps, s).status == Done <==> forall j :: 0 <= j < |steps| ==> StepStatus(steps[j], s) == Done
    decreases |steps|
  {
    if steps != [] {
      var init := steps[..|steps| - 1];
      RunDoneIffAllDone(init, s);
      assert forall j :: 0 <= j < |init| ==> steps[j] == init[j];
    }
  }

  lemma {:induction false} RunFailsAtFirstFailure(steps: seq<Step>, s: Setting)
    ensures var r := RunSteps(steps, s);
            r.status != Done ==>
              exists k :: 0 <= k < |steps| && r.status == StepStatus(steps[k], s)
                          && (forall j :: 0 <= j < k ==> StepStatus(steps[j], s) == Done)
                          && r == RunSteps(steps[..k + 1], s)
    decreases |steps|
  {
    if steps != [] {
      var init := steps[..|steps| - 1];
      var ri := RunSteps(init, s);
      assert forall j :: 0 <= j < |init| ==> steps[j] == init[j];
      if ri.status != Done {
        RunFailsAtFirstFailure(init, s);
        var k :| 0 <= k < |init| && ri.status == StepStatus(init[k], s)
                 && (forall j :: 0 <= j < k ==> StepStatus(init[j], s) == Done)
                 && ri == RunSteps(init[..k + 1], s);
        assert steps[..k + 1] == init[..k + 1];
      } else if StepStatus(steps[|steps| - 1], s) != Done {
        RunDoneIffAllDone(init, s);
        assert steps[..|steps|] == steps;
      }
    }
  }

  /**
   * One more step of a run that has ended normally so far: what it adds to
   * the puts and warnings, and, when it does not end normally, the run of
   * the whole sequence ends with it.
   */
  lemma RunPrefixStep(steps: seq<Step>, i: nat, s: Setting, sent0: seq<Put>, warned0: seq<Warning>)
    requires i < |steps| && RunSteps(steps[..i], s).status == Done
    ensures var r, x, r' := RunSteps(steps[..i], s), steps[i], RunSteps(steps[..i + 1], s);
            && r'.status == StepStatus(x, s)
            && sent0 + r.puts + StepPuts(x, s) == sent0 + r'.puts
            && warned0 + r.warned + StepWarnings(x, s) == warned0 + r'.warned
            && (r'.status != Done ==> RunSteps(steps, s) == r')
  {
    var x, r := steps[i], RunSteps(steps[..i], s);
    TakeSnoc(steps, i);
    RunSnoc(steps[..i], x, s);
    AppendAssoc(sent0, r.puts, StepPuts(x, s));
    AppendAssoc(warned0, r.warned, StepWarnings(x, s));
    RunAppend(steps[..i + 1], steps[i + 1..], s);
    assert steps[..i + 1] + steps[i + 1..] == steps;
  }

  /** The wait `move_energy` makes after a gap write: `wait_pv('EnergyWait', 0)`. */
  function EnergyWaitStep(readings: seq<Value>): Step {
    Await("EnergyWait", VNum(0.0), DefaultTimeout, readings)
  }

  /**
   * The steps of a `move_energy(e)` whose arithmetic succeeds: DCM mode to
   * 1, the detector (constant magnification only), the zone plate, the
   * monochromator, the gap to `e` and a wait (backlash correction only),
   * the gap to `e + gap_offset`, the DCM mode back to `oldMode`, a wait.
   */
  function EnergySteps(e: real, constantMag: bool, correctBacklash: bool, ccd: real, zonePlate: real, oldMode: Value,
                       backlashReadings: seq<Value>, finalReadings: seq<Value>): seq<Step> {
    ModeStep() + DetectorStep(constantMag, ccd) + OpticsSteps(e, zonePlate)
    + BacklashSteps(correctBacklash, e, backlashReadings) + FinalSteps(e, oldMode, finalReadings)
  }

  function ModeStep(): seq<Step> {
    [Assign(Write(DcmMvt, VNum(1.0)))]
  }

  function DetectorStep(constantMag: bool, ccd: real): seq<Step> {
    if constantMag then [Assign(Write(CcdMotor, VNum(ccd)))] else []
  }

  function OpticsSteps(e: real, zonePlate: real): seq<Step> {
    [Assign(Write(ZonePlateZ, VNum(zonePlate))), Assign(Write(DcmPutEnergy, VNum(e)))]
  }

  function BacklashSteps(correctBacklash: bool, e: real, readings: seq<Value>): seq<Step> {
    if correctBacklash then [Assign(Write(GapPutEnergy, VNum(e))), EnergyWaitStep(readings)] else []
  }

  function FinalSteps(e: real, oldMode: Value, readings: seq<Value>): seq<Step> {
    [Assign(Write(GapPutEnergy, VNum(e + GapOffset))), Assign(Write(DcmMvt, oldMode)), EnergyWaitStep(readings)]
  }

  /** The steps kept by `keep`, in order. */
  function Only(steps: seq<Step>, keep: Step -> bool): seq<Step>
    decreases |steps|
  {
    if steps == [] then [] else (if keep(steps[0]) then [steps[0]] else []) + Only(steps[1..], keep)
  }

  lemma {:induction false} OnlyAppend(a: seq<Step>, b: seq<Step>, keep: Step -> bool)
    ensures Only(a + b, keep) == Only(a, keep) + Only(b, keep)
    decreases |a|
  {
    if a == [] {
      assert a + b == b;
    } else {
      var h := if keep(a[0]) then [a[0]] else [];
      assert (a + b)[0] == a[0];
      assert (a + b)[1..] == a[1..] + b;
      OnlyAppend(a[1..], b, keep);
      assert Only(a + b, keep) == h + (Only(a[1..], keep) + Only(b, keep));
      AppendAssoc(h, Only(a[1..], keep), Only(b, keep));
    }
  }

  lemma OnlyOne(x: Step, keep: Step -> bool)
    ensures Only([x], keep) == if keep(x) then [x] else []
  {
    assert [x][1..] == [];
  }

  lemma OnlyPair(x: Step, y: Step, keep: Step -> bool)
    ensures Only([x, y], keep) == (if keep(x) then [x] else []) + (if keep(y) then [y] else [])
  {
    assert [x, y] == [x] + [y];
    OnlyAppend([x], [y], keep);
    OnlyOne(x, keep);
    OnlyOne(y, keep);
  }

  lemma OnlyTriple(x: Step, y: Step, z: Step, keep: Step -> bool)
    ensures Only([x, y, z], keep) == (if keep(x) then [x] else []) + (if keep(y) then [y] else []) + (if keep(z) then [z] else [])
  {
    assert [x, y, z] == [x, y] + [z];
    OnlyAppend([x, y], [z], keep);
    OnlyPair(x, y, keep);
    OnlyOne(z, keep);
  }

  /** The DCM mode and gap assignments and the `EnergyWait` waits. */
  predicate IsMotion(x: Step) {
    match x
    case Assign(w) => w.pv == DcmMvt || w.pv == GapPutEnergy
    case Await(name, _, _, _) => name == "EnergyWait"
  }

  /** The detector, zone-plate and monochromator assignments. */
  predicate IsPositioning(x: Step) {
    x.Assign? && (x.w.pv == CcdMotor || x.w.pv == ZonePlateZ || x.w.pv == DcmPutEnergy)
  }

  /** The descriptors `move_energy` writes are pairwise different. */
  lemma EnergyDescriptorsDistinct()
    ensures DcmMvt != CcdMotor && DcmMvt != ZonePlateZ && DcmMvt != DcmPutEnergy && DcmMvt != GapPutEnergy
    ensures CcdMotor != ZonePlateZ && CcdMotor != DcmPutEnergy && CcdMotor != GapPutEnergy
    ensures ZonePlateZ != DcmPutEnergy && ZonePlateZ != GapPutEnergy && DcmPutEnergy != GapPutEnergy
  {
    assert DcmMvt.permitRequired && !CcdMotor.permitRequired && !ZonePlateZ.permitRequired;
    assert DcmMvt.dtype == Untyped && DcmPutEnergy.dtype == Float && GapPutEnergy.dtype == Untyped;
    assert DcmMvt.wait && !GapPutEnergy.wait && CcdMotor.dtype == Float && ZonePlateZ.dtype == Untyped;
  }

  /** Which of the parts of `EnergySteps` are motions and which positioning. */
  lemma ModeStepSorted()
    ensures Only(ModeStep(), IsMotion) == ModeStep() && Only(ModeStep(), IsPositioning) == []
  {
    EnergyDescriptorsDistinct();
    OnlyOne(ModeStep()[0], IsMotion);
    OnlyOne(ModeStep()[0], IsPositioning);
  }

  lemma DetectorStepSorted(constantMag: bool, ccd: real)
    ensures Only(DetectorStep(constantMag, ccd), IsMotion) == []
    ensures Only(DetectorStep(constantMag, ccd), IsPositioning) == DetectorStep(constantMag, ccd)
  {
    EnergyDescriptorsDistinct();
    if constantMag {
      OnlyOne(DetectorStep(constantMag, ccd)[0], IsMotion);
      OnlyOne(DetectorStep(constantMag, ccd)[0], IsPositioning);
    }
  }

  lemma OpticsStepsSorted(e: real, zonePlate: real)
    ensures Only(OpticsSteps(e, zonePlate), IsMotion) == []
    ensures Only(OpticsSteps(e, zonePlate), IsPositioning) == OpticsSteps(e, zonePlate)
  {
    EnergyDescriptorsDistinct();
    var m := OpticsSteps(e, zonePlate);
    OnlyPair(m[0], m[1], IsMotion);
    OnlyPair(m[0], m[1], IsPositioning);
  }

  lemma BacklashStepsSorted(correctBacklash: bool, e: real, readings: seq<Value>)
    ensures Only(BacklashSteps(correctBacklash, e, readings), IsMotion) == BacklashSteps(correctBacklash, e, readings)
    ensures Only(BacklashSteps(correctBacklash, e, readings), IsPositioning) == []
  {
    EnergyDescriptorsDistinct();
    if correctBacklash {
      var g := BacklashSteps(correctBacklash, e, readings);
      OnlyPair(g[0], g[1], IsMotion);
      OnlyPair(g[0], g[1], IsPositioning);
    }
  }

  lemma FinalStepsSorted(e: real, oldMode: Value, readings: seq<Value>)
    ensures Only(FinalSteps(e, oldMode, readings), IsMotion) == FinalSteps(e, oldMode, readings)
    ensures Only(FinalSteps(e, oldMode, readings), IsPositioning) == []
  {
    var t := FinalSteps(e, oldMode, readings);
    assert IsMotion(t[0]) && IsMotion(t[1]) && IsMotion(t[2]);
    assert !IsPositioning(t[0]) && !IsPositioning(t[1]) && !IsPositioning(t[2]) by {
      EnergyDescriptorsDistinct();
    }
    OnlyTriple(t[0], t[1], t[2], IsMotion);
    OnlyTriple(t[0], t[1], t[2], IsPositioning);
    assert [t[0]] + [t[1]] + [t[2]] == t;
  }

  /**
   * The DCM mode, gap and wait steps of `move_energy`, in order: the mode
   * goes to 1, the gap to E followed by a wait (backlash correction only),
   * the gap to E + 0.15, the mode back to its saved value, and a final
   * wait. So every gap write is waited for, and the mode is restored only
   * after the last gap write.
   */
  lemma EnergyMotions(e: real, constantMag: bool, correctBacklash: bool, ccd: real, zonePlate: real, oldMode: Value,
                      rb: seq<Value>, rf: seq<Value>)
    ensures Only(EnergySteps(e, constantMag, correctBacklash, ccd, zonePlate, oldMode, rb, rf), IsMotion)
            == [Assign(Write(DcmMvt, VNum(1.0)))]
               + (if correctBacklash then [Assign(Write(GapPutEnergy, VNum(e))), EnergyWaitStep(rb)] else [])
               + [Assign(Write(GapPutEnergy, VNum(e + GapOffset))), Assign(Write(DcmMvt, oldMode)), EnergyWaitStep(rf)]
  {
    var a, c, m := ModeStep(), DetectorStep(constantMag, ccd), OpticsSteps(e, zonePlate);
    var g, t := BacklashSteps(correctBacklash, e, rb), FinalSteps(e, oldMode, rf);
    OnlyAppend(a + c + m + g, t, IsMotion);
    OnlyAppend(a + c + m, g, IsMotion);
    OnlyAppend(a + c, m, IsMotion);
    OnlyAppend(a, c, IsMotion);
    ModeStepSorted();
    DetectorStepSorted(constantMag, ccd);
    OpticsStepsSorted(e, zonePlate);
    BacklashStepsSorted(correctBacklash, e, rb);
    FinalStepsSorted(e, oldMode, rf);
  }

  /**
   * The detector (constant magnification only), the zone plate and the
   * monochromator are each set once, in that order, all before the first
   * gap write: the steps from the first gap write on set none of them.
   */
  lemma EnergyPositioning(e: real, constantMag: bool, correctBacklash: bool, ccd: real, zonePlate: real, oldMode: Value,
                          rb: seq<Value>, rf: seq<Value>)
    ensures var ss := EnergySteps(e, constantMag, correctBacklash, ccd, zonePlate, oldMode, rb, rf);
            var k := if constantMag then 4 else 3;
            && Only(ss, IsPositioning)
               == (if constantMag then [Assign(Write(CcdMotor, VNum(ccd)))] else [])
                  + [Assign(Write(ZonePlateZ, VNum(zonePlate))), Assign(Write(DcmPutEnergy, VNum(e)))]
            && k < |ss| && ss[k].Assign? && ss[k].w.pv == GapPutEnergy
            && Only(ss[k..], IsPositioning) == []
  {
    PositioningSteps(e, constantMag, correctBacklash, ccd, zonePlate, oldMode, rb, rf);
    PositioningEndsAtGap(e, constantMag, correctBacklash, ccd, zonePlate, oldMode, rb, rf);
  }

  lemma PositioningSteps(e: real, constantMag: bool, correctBacklash: bool, ccd: real, zonePlate: real, oldMode: Value,
                         rb: seq<Value>, rf: seq<Value>)
    ensures Only(EnergySteps(e, constantMag, correctBacklash, ccd, zonePlate, oldMode, rb, rf), IsPositioning)
            == DetectorStep(constantMag, ccd) + OpticsSteps(e, zonePlate)
  {
    var a, c, m := ModeStep(), DetectorStep(constantMag, ccd), OpticsSteps(e, zonePlate);
    var g, t := BacklashSteps(correctBacklash, e, rb), FinalSteps(e, oldMode, rf);
    ModeStepSorted();
    DetectorStepSorted(constantMag, ccd);
    OpticsStepsSorted(e, zonePlate);
    BacklashStepsSorted(correctBacklash, e, rb);
    FinalStepsSorted(e, oldMode, rf);
    OnlyAppend(a, c, IsPositioning);
    assert Only(a + c, IsPositioning) == c;
    OnlyAppend(a + c, m, IsPositioning);
    assert Only(a + c + m, IsPositioning) == c + m;
    OnlyAppend(a + c + m, g, IsPositioning);
    assert Only(a + c + m + g, IsPositioning) == c + m;
    OnlyAppend(a + c + m + g, t, IsPositioning);
  }

  lemma PositioningEndsAtGap(e: real, constantMag: bool, correctBacklash: bool, ccd: real, zonePlate: real, oldMode: Value,
                             rb: seq<Value>, rf: seq<Value>)
    ensures var ss := EnergySteps(e, constantMag, correctBacklash, ccd, zonePlate, oldMode, rb, rf);
            var k := if constantMag then 4 else 3;
            && k < |ss| && ss[k].Assign? && ss[k].w.pv == GapPutEnergy
            && Only(ss[k..], IsPositioning) == []
  {
    var a, c, m := ModeStep(), DetectorStep(constantMag, ccd), OpticsSteps(e, zonePlate);
    var g, t := BacklashSteps(correctBacklash, e, rb), FinalSteps(e, oldMode, rf);
    var front := a + c + m;
    var back := g + t;
    AppendAssoc(front, g, t);
    var ss := front + back;
    assert |front| == (if constantMag then 4 else 3);
    assert ss[|front|..] == back;
    assert ss[|front|] == back[0];
    BacklashStepsSorted(correctBacklash, e, rb);
    FinalStepsSorted(e, oldMode, rf);
    OnlyAppend(g, t, IsPositioning);
  }

  /** With the permit no assignment warns, so no run does. */
  lemma {:induction false} RunWithPermitWarnsNothing(steps: seq<Step>, s: Setting)
    requires s.hasPermit
    ensures RunSteps(steps, s).warned == []
    decreases |steps|
  {
    if steps != [] {
      RunWithPermitWarnsNothing(steps[..|steps| - 1], s);
    }
  }

  /**
   * With the permit, a `move_energy` whose steps all end normally finishes
   * with two puts: the gap to E + 0.15, sent without waiting, and then the
   * DCM mode back to the value it had before.
   */
  lemma EnergyMoveEnds(e: real, constantMag: bool, correctBacklash: bool, ccd: real, zonePlate: real, oldMode: Value,
                       rb: seq<Value>, rf: seq<Value>, s: Setting)
    requires s.hasPermit
    ensures var r := RunSteps(EnergySteps(e, constantMag, correctBacklash, ccd, zonePlate, oldMode, rb, rf), s);
            r.status == Done ==>
              && |r.puts| >= 2
              && r.puts[|r.puts| - 2..] == [Put(PvName(GapPutEnergy, s.prefix), VNum(e + GapOffset), false),
                                            Put(PvName(DcmMvt, s.prefix), oldMode, !s.queued)]
              && r.warned == []
  {
    var front := ModeStep() + DetectorStep(constantMag, ccd) + OpticsSteps(e, zonePlate) + BacklashSteps(correctBacklash, e, rb);
    var t := FinalSteps(e, oldMode, rf);
    RunAppend(front, t, s);
    RunWithPermitWarnsNothing(front + t, s);
    FinalStepsRun(e, oldMode, rf, s);
    var r0, rt := RunSteps(front, s), RunSteps(t, s);
    if r0.status == Done && rt.status == Done {
      assert (r0.puts + rt.puts)[|r0.puts|..] == rt.puts;
    }
  }

  /** The final gap, mode and wait steps put the gap and then the mode, when they end normally. */
  lemma FinalStepsRun(e: real, oldMode: Value, rf: seq<Value>, s: Setting)
    requires s.hasPermit
    ensures var rt := RunSteps(FinalSteps(e, oldMode, rf), s);
            rt.status == Done ==> rt.puts == [Put(PvName(GapPutEnergy, s.prefix), VNum(e + GapOffset), false),
                                              Put(PvName(DcmMvt, s.prefix), oldMode, !s.queued)]
  {
    var t := FinalSteps(e, oldMode, rf);
    var x, y, z := t[0], t[1], t[2];
    var gap, mode := Put(PvName(GapPutEnergy, s.prefix), VNum(e + GapOffset), false), Put(PvName(DcmMvt, s.prefix), oldMode, !s.queued);
    assert StepPuts(x, s) == [gap];
    assert StepPuts(y, s) == [mode];
    assert StepPuts(z, s) == [];
    assert [x] == [] + [x];
    RunSnoc([], x, s);
    assert [x, y] == [x] + [y];
    RunSnoc([x], y, s);
    assert t == [x, y] + [z];
    RunSnoc([x, y], z, s);
  }

  predicate InEnergyRange(e: real) {
    EnergyLow <= e <= EnergyHigh
  }

  /**
   * The optics arithmetic of `move_energy`, abstracted. From the current
   * energy and detector position, the target energy and `constant_mag` it
   * either raises before the DCM mode is touched (wavelength and focal
   * length, the first square root), raises after the mode has been set to
   * 1 (the magnification or working-distance computation), or gives the
   * detector and zone-plate targets. Nothing in this revision catches it.
   */
  datatype Optics = Fails(failure: Error) | FailsAfterModeSet(failure: Error) | Targets(ccd: real, zonePlate: real)

  type Arithmetic = (real, real, real, bool) -> Optics

  /**
   * The arithmetic of `move_energy` on the values read: the old wavelength
   * `1240 / (kev * 1000)` is computed first, so a monochromator reading
   * that is not a number raises TypeError and a zero reading
   * ZeroDivisionError before the detector value is used; a detector value
   * that is not a number then raises TypeError in the first square root.
   */
  function Optical(oldEnergy: Value, oldCcd: Value, e: real, constantMag: bool, optics: Arithmetic): Optics {
    if !oldEnergy.VNum? then Fails(TypeError)
    else if oldEnergy.num == 0.0 then Fails(ZeroDivisionError)
    else if !oldCcd.VNum? then Fails(TypeError)
    else optics(oldEnergy.num, oldCcd.num, e, constantMag)
  }

  /**
   * A `move_energy` call, planned on the device it starts from: refused
   * with an exception before any write, or a run of steps with the
   * exception the arithmetic raises after them, if any.
   */
  datatype EnergyPlan =
    | Refused(status: Status, warned: seq<Warning>)
    | Moves(warned: seq<Warning>, steps: seq<Step>, failure: Option<Error>)

  /**
   * The body of `move_energy(energy, constant_mag, correct_backlash)`. A
   * non-number makes the range comparison raise TypeError and one outside
   * the range raises EnergyError, both before any read. Then the
   * monochromator energy and the detector position are read through their
   * float descriptors, the arithmetic runs, and the DCM mode is read just
   * before it is set to 1.
   */
  function PlanEnergyMove(o: Owner, energy: Value, constantMag: bool, correctBacklash: bool, optics: Arithmetic,
                          rb: seq<Value>, rf: seq<Value>): (p: EnergyPlan)
    ensures !energy.VNum? ==> p == Refused(Raised(TypeError), [])
    ensures energy.VNum? && !InEnergyRange(energy.num) ==> p == Refused(Raised(EnergyError), [])
    ensures energy.VNum? && InEnergyRange(energy.num) ==>
              var re, rc := GetTomo(DcmPutEnergy, Some(o)), GetTomo(CcdMotor, Some(o));
              && (re.ReadRaised? ==> p == Refused(Raised(re.error), []))
              && (re.Got? && rc.ReadRaised? ==> p == Refused(Raised(rc.error), CastWarnings(re)))
              && (re.Got? && rc.Got? && re.value == VNum(0.0) ==>
                    p == Refused(Raised(ZeroDivisionError), CastWarnings(re) + CastWarnings(rc)))
              && (re.Got? && rc.Got? && (!re.value.VNum? || (re.value.num != 0.0 && !rc.value.VNum?)) ==>
                    p == Refused(Raised(TypeError), CastWarnings(re) + CastWarnings(rc)))
    ensures p.Refused? ==> p.status.Raised?
    ensures p.Moves? ==> InEnergyRange(energy.num) && p.steps != [] && p.steps[0] == Assign(Write(DcmMvt, VNum(1.0)))
    ensures p.Moves? && p.failure.None? ==>
              |p.steps| >= 6 && p.steps[|p.steps| - 2] == Assign(Write(DcmMvt, DeviceGet(o.pvs, PvName(DcmMvt, o.prefix))))
  {
    if !energy.VNum? then Refused(Raised(TypeError), [])
    else if !InEnergyRange(energy.num) then Refused(Raised(EnergyError), [])
    else
      var re := GetTomo(DcmPutEnergy, Some(o));
      if re.ReadRaised? then Refused(Raised(re.error), [])
      else
        var rc := GetTomo(CcdMotor, Some(o));
        if rc.ReadRaised? then Refused(Raised(rc.error), CastWarnings(re))
        else
          var seen := CastWarnings(re) + CastWarnings(rc);
          var plan := Optical(re.value, rc.value, energy.num, constantMag, optics);
          match plan
          case Fails(err) => Refused(Raised(err), seen)
          case FailsAfterModeSet(err) => Moves(seen, [Assign(Write(DcmMvt, VNum(1.0)))], Some(err))
          case Targets(ccd, zonePlate) =>
            EnergyStepsEnds(energy.num, constantMag, correctBacklash, ccd, zonePlate, DeviceGet(o.pvs, PvName(DcmMvt, o.prefix)), rb, rf);
            Moves(seen, EnergySteps(energy.num, constantMag, correctBacklash, ccd, zonePlate,
                                    DeviceGet(o.pvs, PvName(DcmMvt, o.prefix)), rb, rf), None)
  }

  /** The steps of a successful `move_energy` set the DCM mode to 1 first and back to `oldMode` next to last. */
  lemma EnergyStepsEnds(e: real, constantMag: bool, correctBacklash: bool, ccd: real, zonePlate: real, oldMode: Value,
                        rb: seq<Value>, rf: seq<Value>)
    ensures var ss := EnergySteps(e, constantMag, correctBacklash, ccd, zonePlate, oldMode, rb, rf);
            && |ss| >= 6 && ss[0] == Assign(Write(DcmMvt, VNum(1.0))) && ss[|ss| - 2] == Assign(Write(DcmMvt, oldMode))
  {
    var a, c, m := ModeStep(), DetectorStep(constantMag, ccd), OpticsSteps(e, zonePlate);
    var g, t := BacklashSteps(correctBacklash, e, rb), FinalSteps(e, oldMode, rf);
    var front := a + c + m + g;
    var ss := front + t;
    assert ss == EnergySteps(e, constantMag, correctBacklash, ccd, zonePlate, oldMode, rb, rf);
    assert |front| >= 3 && front[0] == a[0];
    assert |t| == 3 && t[1] == Assign(Write(DcmMvt, oldMode));
    assert ss[0] == front[0];
    assert |ss| - 2 == |front| + 1 && ss[|front| + 1] == t[1];
  }

  /** One enabled shutter's part of a shutter operation: its write, then a wait on its status PV. */
  function ShutterPart(enabled: bool, pv: Descriptor, status: string, target: Value, readings: seq<Value>): seq<Step> {
    if enabled then [Assign(Write(pv, VNum(1.0))), Await(status, target, DefaultTimeout, readings)] else []
  }

  /**
   * The steps of `open_shutters` (`opening`) or `close_shutters` once the
   * permit is held: shutter A's part, then shutter B's. Closing shutter A
   * waits on the misspelled name.
   */
  function ShutterSteps(useA: bool, useB: bool, opening: bool, readingsA: seq<Value>, readingsB: seq<Value>): seq<Step> {
    var target := if opening then ShutterOpen else ShutterClosed;
    ShutterPart(useA, if opening then ShutterAOpen else ShutterAClose,
                if opening then "ShutterA_Move_Status" else ShutterAClosedStatus, target, readingsA)
    + ShutterPart(useB, if opening then ShutterBOpen else ShutterBClose, "ShutterB_Move_Status", target, readingsB)
  }

  /** The run of one write and one wait: the wait only if the write went through. */
  lemma RunAssignAwait(w: Write, name: string, target: Value, timeout: real, readings: seq<Value>, s: Setting)
    ensures RunSteps([Assign(w), Await(name, target, timeout, readings)], s)
            == if AssignStatus(w, s) != Done then Run(AssignStatus(w, s), SendOf(w, s.prefix, s.hasPermit, s.queued), AssignWarnings(w, s))
               else Run(WaitStatus(name, target, timeout, readings), SendOf(w, s.prefix, s.hasPermit, s.queued), AssignWarnings(w, s))
  {
    RunSnoc([], Assign(w), s);
    assert [Assign(w)] == [] + [Assign(w)];
    RunSnoc([Assign(w)], Await(name, target, timeout, readings), s);
    assert [Assign(w), Await(name, target, timeout, readings)] == [Assign(w)] + [Await(name, target, timeout, readings)];
  }

  /**
   * With the permit held, one shutter's part that ends normally has sent
   * one put, to that shutter's PV, and warned nothing.
   */
  lemma ShutterPartRun(enabled: bool, pv: Descriptor, status: string, target: Value, readings: seq<Value>, s: Setting)
    requires s.hasPermit
    ensures var r := RunSteps(ShutterPart(enabled, pv, status, target, readings), s);
            r.status == Done ==>
              r.puts == (if enabled then [Put(PvName(pv, s.prefix), VNum(1.0), !s.queued && pv.wait)] else [])
              && r.warned == []
  {
    if enabled {
      RunAssignAwait(Write(pv, VNum(1.0)), status, target, DefaultTimeout, readings, s);
    }
  }

  /**
   * With the permit held, closing with shutter A enabled never ends
   * normally: the write to ShutterA_Close raises, or the wait on
   * 'ShutteA_Move_Status' raises KeyError. Shutter B is then not touched.
   */
  lemma CloseWithShutterAFails(useB: bool, readingsA: seq<Value>, readingsB: seq<Value>, s: Setting)
    requires s.hasPermit
    ensures var r := RunSteps(ShutterSteps(true, useB, false, readingsA, readingsB), s);
            && r.status != Done
            && (ReplyTo(s.replies, PvName(ShutterAClose, s.prefix)) == Acked ==> r.status == Raised(KeyError))
            && r.puts == [Put(PvName(ShutterAClose, s.prefix), VNum(1.0), !s.queued)]
  {
    var a := ShutterPart(true, ShutterAClose, ShutterAClosedStatus, ShutterClosed, readingsA);
    var b := ShutterPart(useB, ShutterBClose, "ShutterB_Move_Status", ShutterClosed, readingsB);
    RunAppend(a, b, s);
    RunAssignAwait(Write(ShutterAClose, VNum(1.0)), ShutterAClosedStatus, ShutterClosed, DefaultTimeout, readingsA, s);
    MisspelledStatusUnknown();
  }

  /**
   * With the permit held, a shutter operation that ends normally has sent
   * exactly one put per enabled shutter, A's before B's, and warned nothing.
   */
  lemma ShutterPutsFollowFlags(useA: bool, useB: bool, opening: bool, readingsA: seq<Value>, readingsB: seq<Value>, s: Setting)
    requires s.hasPermit
    ensures var r := RunSteps(ShutterSteps(useA, useB, opening, readingsA, readingsB), s);
            r.status == Done ==>
              && r.puts == (if useA then [Put(PvName(if opening then ShutterAOpen else ShutterAClose, s.prefix), VNum(1.0), !s.queued)] else [])
                           + (if useB then [Put(PvName(if opening then ShutterBOpen else ShutterBClose, s.prefix), VNum(1.0), !s.queued)] else [])
              && r.warned == []
  {
    var target := if opening then ShutterOpen else ShutterClosed;
    var pa := if opening then ShutterAOpen else ShutterAClose;
    var pb := if opening then ShutterBOpen else ShutterBClose;
    var nameA := if opening then "ShutterA_Move_Status" else ShutterAClosedStatus;
    var a := ShutterPart(useA, pa, nameA, target, readingsA);
    var b := ShutterPart(useB, pb, "ShutterB_Move_Status", target, readingsB);
    RunAppend(a, b, s);
    ShutterPartRun(useA, pa, nameA, target, readingsA, s);
    ShutterPartRun(useB, pb, "ShutterB_Move_Status", target, readingsB, s);
    assert pa.wait && pb.wait;
  }

  class Txm {
    const iocPrefix: string
    const hasPermit: bool
    const useShutterA: bool
    const useShutterB: bool
    /** How the device answers puts, per PV name. */
    const replies: map<string, Reply>
    /** The device as the instrument found it. */
    ghost const initialPvs: map<string, Value>

    var pvs: map<string, Value>
    var sent: seq<Put>
    var warnings: seq<Warning>
    var pvQueue: Option<seq<PvPromise>>
    var shuttersAreOpen: bool
    var triggered: seq<int>

    /** The device holds what the logged puts left in it. */
    ghost predicate Valid()
      reads this`pvs, this`sent
    {
      pvs == Replay(initialPvs, replies, sent)
    }

    /** `TXM(has_permit, ioc_prefix, use_shutter_A, use_shutter_B)` on a device. */
    constructor(hasPermit: bool, iocPrefix: string, useShutterA: bool, useShutterB: bool,
                device: map<string, Value>, replies: map<string, Reply>)
      ensures Valid()
      ensures this.iocPrefix == iocPrefix && this.hasPermit == hasPermit
      ensures this.useShutterA == useShutterA && this.useShutterB == useShutterB
      ensures this.replies == replies && pvs == device && sent == [] && warnings == []
      ensures pvQueue == None && !shuttersAreOpen && triggered == []
    {
      this.iocPrefix := iocPrefix;
      this.hasPermit := hasPermit;
      this.useShutterA := useShutterA;
      this.useShutterB := useShutterB;
      this.replies := replies;
      initialPvs := device;
      pvs := device;
      sent := [];
      warnings := [];
      pvQueue := None;
      shuttersAreOpen := false;
      triggered := [];
    }

    /** The instrument as a descriptor sees it. */
    function AsOwner(): Owner
      reads this`pvs
    {
      Owner(iocPrefix, pvs)
    }

    /** Whether a `wait_pvs` scope is active. */
    function Queued(): bool
      reads this`pvQueue
    {
      pvQueue.Some?
    }

    function CurrentSetting(): Setting
      reads this`pvQueue
    {
      Setting(iocPrefix, hasPermit, replies, pvQueue.Some?)
    }

    /**
     * `pv_put`. With a queue the put is sent without waiting and a fresh
     * promise is appended, earlier ones for the same PV staying; without
     * one the caller's `wait` is passed on. A TypeError from `_pv_put`
     * (reply `RaisedTypeError`) escapes before the queue is touched.
     */
    method PvPut(name: string, value: Value, wait: bool) returns (ret: Reply)
      requires Valid()
      modifies this`sent, this`pvs, this`pvQueue
      ensures Valid()
      ensures ret == ReplyTo(replies, name)
      ensures sent == old(sent) + [Put(name, value, old(pvQueue).None? && wait)]
      ensures pvs == Store(old(pvs), replies, Put(name, value, old(pvQueue).None? && wait))
      ensures pvQueue.Some? == old(pvQueue).Some?
      ensures old(pvQueue).None? || ret == RaisedTypeError ==> pvQueue == old(pvQueue)
      ensures old(pvQueue).Some? && ret != RaisedTypeError ==>
                var q := pvQueue.value;
                && |q| == |old(pvQueue).value| + 1 && q[..|q| - 1] == old(pvQueue).value
                && q[|q| - 1].pvName == name && fresh(q[|q| - 1]) && !q[|q| - 1].isComplete
    {
      var put := Put(name, value, pvQueue.None? && wait);
      ret := ReplyTo(replies, name);
      ReplaySnoc(initialPvs, replies, sent, put);
      sent := sent + [put];
      pvs := Store(pvs, replies, put);
      if pvQueue.Some? && ret != RaisedTypeError {
        var promise := new PvPromise(name);
        var q := pvQueue.value + [promise];
        assert q[..|q| - 1] == pvQueue.value;
        pvQueue := Some(q);
      }
    }

    /**
     * `TxmPV.__set__` of tomo/32id/txm_pv.py: without a needed permit
     * nothing is sent and one warning is issued; otherwise `pv_put` is
     * called with the descriptor's `wait`, a falsy result raising PVError.
     */
    method SetPv(pv: Descriptor, value: Value) returns (st: Status)
      requires Valid()
      modifies this`sent, this`pvs, this`pvQueue, this`warnings
      ensures Valid() && Queued() == old(Queued())
      ensures st == AssignStatus(Write(pv, value), old(CurrentSetting()))
      ensures sent == old(sent) + SendOf(Write(pv, value), iocPrefix, hasPermit, old(Queued()))
      ensures warnings == old(warnings) + AssignWarnings(Write(pv, value), old(CurrentSetting()))
      ensures Permitted(pv, hasPermit) ==> pvs == Store(old(pvs), replies, Put(PvName(pv, iocPrefix), value, !old(Queued()) && pv.wait))
      ensures !Permitted(pv, hasPermit) ==> pvs == old(pvs) && pvQueue == old(pvQueue)
    {
      var name := PvName(pv, iocPrefix);
      if Permitted(pv, hasPermit) {
        var reply := PvPut(name, value, pv.wait);
        st := TomoSetStatus(reply);
      } else {
        warnings := warnings + [NotSetWithoutPermit(name)];
        st := Done;
      }
    }

    /** A read through a descriptor: `TxmPV.__get__`, with its cast warning. */
    method ReadPv(pv: Descriptor) returns (r: Read)
      modifies this`warnings
      ensures r == GetTomo(pv, Some(AsOwner())) && !r.Itself?
      ensures warnings == old(warnings) + CastWarnings(r)
    {
      r := GetTomo(pv, Some(AsOwner()));
      warnings := warnings + CastWarnings(r);
    }

    /**
     * `wait_pv(name, target, timeout)` on the successive values the named
     * descriptor reads: KeyError for a name that is not a class attribute,
     * True on a match, TimeoutError once the timeout has elapsed.
     */
    method WaitPv(name: string, target: Value, timeout: real, readings: seq<Value>) returns (st: Status)
      ensures st == WaitStatus(name, target, timeout, readings)
      ensures name !in PvAttributes ==> st == Raised(KeyError)
      ensures name in PvAttributes ==>
                var p := PollOf(readings, target, timeout);
                && (st == Done <==> p.Matched?)
                && (st == Raised(TimeoutError) <==> p.TimedOut?)
                && (st == StillPolling <==> p.Exhausted?)
      ensures timeout <= -1.0 ==> st != Raised(TimeoutError)
    {
      if name !in PvAttributes {
        return Raised(KeyError);
      }
      var p := PollUntil(readings, target, timeout);
      if timeout <= -1.0 {
        NoTimeoutNeverGivesUp(readings, target, timeout);
      }
      match p
      case Matched(_) => st := Done;
      case TimedOut(_) => st := Raised(TimeoutError);
      case Exhausted => st := StillPolling;
    }

    /** One step: a descriptor write or a wait on a PV. */
    method RunStep(x: Step) returns (st: Status)
      requires Valid()
      modifies this`sent, this`pvs, this`pvQueue, this`warnings
      ensures Valid() && Queued() == old(Queued()) && CurrentSetting() == old(CurrentSetting())
      ensures st == StepStatus(x, old(CurrentSetting()))
      ensures sent == old(sent) + StepPuts(x, old(CurrentSetting()))
      ensures warnings == old(warnings) + StepWarnings(x, old(CurrentSetting()))
    {
      match x {
        case Assign(w) => st := SetPv(w.pv, w.value);
        case Await(name, target, timeout, readings) => st := WaitPv(name, target, timeout, readings);
      }
    }

    /** Steps in order, up to the first that raises or runs out of readings. */
    method RunAll(steps: seq<Step>) returns (st: Status)
      requires Valid()
      modifies this`sent, this`pvs, this`pvQueue, this`warnings
      ensures Valid() && Queued() == old(Queued())
      ensures var r := RunSteps(steps, old(CurrentSetting()));
              && st == r.status && sent == old(sent) + r.puts && warnings == old(warnings) + r.warned
    {
      ghost var s := CurrentSetting();
      var i := 0;
      while i < |steps|
        invariant 0 <= i <= |steps|
        invariant Valid() && Queued() == old(Queued()) && CurrentSetting() == s
        invariant RunSteps(steps[..i], s).status == Done
        invariant sent == old(sent) + RunSteps(steps[..i], s).puts
        invariant warnings == old(warnings) + RunSteps(steps[..i], s).warned
      {
        var x := steps[i];
        RunPrefixStep(steps, i, s, old(sent), old(warnings));
        st := RunStep(x);
        if st != Done {
          return;
        }
        i := i + 1;
      }
      assert steps[..i] == steps;
      st := Done;
    }

    /** Entering `wait_pvs`: the current queue is saved and an empty one installed and yielded. */
    method WaitPvsEnter() returns (saved: Option<seq<PvPromise>>, yielded: seq<PvPromise>)
      modifies this`pvQueue
      ensures saved == old(pvQueue) && pvQueue == Some([]) && yielded == pvQueue.value
    {
      saved := pvQueue;
      pvQueue := Some([]);
      yielded := pvQueue.value;
    }

    /** The promises of the current queue. */
    ghost function Promises(): set<PvPromise>
      reads this`pvQueue
    {
      if pvQueue.Some? then set p | p in pvQueue.value else {}
    }

    /**
     * Leaving `wait_pvs` normally: when blocking, poll until every queued
     * promise has completed (`fired[t]` names the PVs whose put callbacks
     * arrive in round t), then put the saved queue back. A scope whose body
     * raises never gets here, so its saved queue is not restored.
     */
    method WaitPvsExit(saved: Option<seq<PvPromise>>, block: bool, fired: seq<set<string>>) returns (st: Status)
      modifies this`pvQueue, Promises()
      ensures old(pvQueue).None? ==> st == Raised(TypeError) && pvQueue == old(pvQueue)
      ensures old(pvQueue).Some? ==> st == Done || st == StillPolling
      ensures old(pvQueue).Some? && !block ==> st == Done
      ensures st == Done ==> pvQueue == saved
      ensures st == Done && block ==> AllComplete(old(pvQueue).value)
      ensures st == StillPolling ==> pvQueue == old(pvQueue) && block && !AllComplete(old(pvQueue).value)
      ensures old(pvQueue).Some? ==> forall p :: p in old(pvQueue).value && old(p.isComplete) ==> p.isComplete
    {
      if pvQueue.None? {
        return Raised(TypeError);
      }
      var q := pvQueue.value;
      var t := 0;
      while block && !AllComplete(q)
        invariant 0 <= t <= |fired|
        invariant pvQueue == old(pvQueue) && q == old(pvQueue).value
        invariant forall p :: p in q && old(p.isComplete) ==> p.isComplete
        decreases |fired| - t
      {
        if t == |fired| {
          return StillPolling;
        }
        CompleteNamed(q, fired[t]);
        t := t + 1;
      }
      pvQueue := saved;
      return Done;
    }

    /**
     * `move_energy(energy, constant_mag, correct_backlash)` behind its
     * `permit_required`: without the permit one warning and nothing else.
     * `rb` and `rf` are the readings of the backlash and final waits.
     */
    method MoveEnergy(energy: Value, constantMag: bool, correctBacklash: bool, optics: Arithmetic,
                      rb: seq<Value>, rf: seq<Value>) returns (st: Status)
      requires Valid()
      modifies this`sent, this`pvs, this`pvQueue, this`warnings
      ensures Valid() && Queued() == old(Queued())
      ensures !hasPermit ==> st == Done && sent == old(sent) && warnings == old(warnings) + [PermitNotGranted]
      ensures hasPermit ==>
                match PlanEnergyMove(old(AsOwner()), energy, constantMag, correctBacklash, optics, rb, rf)
                case Refused(status, warned) => st == status && sent == old(sent) && warnings == old(warnings) + warned
                case Moves(warned, steps, failure) =>
                  var r := RunSteps(steps, old(CurrentSetting()));
                  && st == (if r.status == Done && failure.Some? then Raised(failure.value) else r.status)
                  && sent == old(sent) + r.puts && warnings == old(warnings) + warned + r.warned
    {
      if TomoPermitRequired(hasPermit) == WarnAndReturnNone {
        warnings := warnings + [PermitNotGranted];
        return Done;
      }
      st := MoveEnergyBody(energy, constantMag, correctBacklash, optics, rb, rf);
    }

    /**
     * The decorated body of `move_energy`: the reads and the arithmetic
     * first, issuing the cast warnings of the reads, then the steps.
     */
    method MoveEnergyBody(energy: Value, constantMag: bool, correctBacklash: bool, optics: Arithmetic,
                          rb: seq<Value>, rf: seq<Value>) returns (st: Status)
      requires Valid()
      modifies this`sent, this`pvs, this`pvQueue, this`warnings
      ensures Valid() && Queued() == old(Queued())
      ensures match PlanEnergyMove(old(AsOwner()), energy, constantMag, correctBacklash, optics, rb, rf)
              case Refused(status, warned) => st == status && sent == old(sent) && warnings == old(warnings) + warned
              case Moves(warned, steps, failure) =>
                var r := RunSteps(steps, old(CurrentSetting()));
                && st == (if r.status == Done && failure.Some? then Raised(failure.value) else r.status)
                && sent == old(sent) + r.puts && warnings == old(warnings) + warned + r.warned
    {
      var p := PlanEnergyMove(AsOwner(), energy, constantMag, correctBacklash, optics, rb, rf);
      warnings := warnings + p.warned;
      match p
      case Refused(status, _) =>
        st := status;
      case Moves(warned, steps, failure) =>
        st := RunAll(steps);
        AppendAssoc(old(warnings), warned, RunSteps(steps, old(CurrentSetting())).warned);
        if st == Done && failure.Some? {
          st := Raised(failure.value);
        }
    }

    /**
     * `open_shutters()` behind its `permit_required`: without the permit
     * one warning and nothing else. With it the enabled shutters are opened
     * and waited for in turn; the flag becomes "A or B"; with neither
     * enabled the final check reads the undefined `is_attached`, raising
     * AttributeError.
     */
    method OpenShutters(readingsA: seq<Value>, readingsB: seq<Value>) returns (st: Status)
      requires Valid()
      modifies this`sent, this`pvs, this`pvQueue, this`warnings, this`shuttersAreOpen
      ensures Valid() && Queued() == old(Queued())
      ensures !hasPermit ==> st == Done && sent == old(sent) && warnings == old(warnings) + [PermitNotGranted]
                              && shuttersAreOpen == old(shuttersAreOpen)
      ensures hasPermit ==>
                var r := RunSteps(ShutterSteps(useShutterA, useShutterB, true, readingsA, readingsB), old(CurrentSetting()));
                && sent == old(sent) + r.puts && warnings == old(warnings) + r.warned
                && st == (if r.status != Done then r.status else if useShutterA || useShutterB then Done else Raised(AttributeError))
                && shuttersAreOpen == (if r.status == Done then useShutterA || useShutterB else old(shuttersAreOpen))
    {
      if TomoPermitRequired(hasPermit) == WarnAndReturnNone {
        warnings := warnings + [PermitNotGranted];
        return Done;
      }
      st := RunAll(ShutterSteps(useShutterA, useShutterB, true, readingsA, readingsB));
      if st == Done {
        shuttersAreOpen := useShutterA || useShutterB;
        if !(useShutterA || useShutterB) {
          st := Raised(AttributeError);
        }
      }
    }

    /**
     * `close_shutters()` behind its `permit_required`: without the permit
     * one warning and nothing else. With it the enabled shutters are closed
     * and waited for in turn (shutter A's wait raising KeyError); the flag
     * becomes False; with neither enabled the `is_attached` check raises
     * AttributeError.
     */
    method CloseShutters(readingsA: seq<Value>, readingsB: seq<Value>) returns (st: Status)
      requires Valid()
      modifies this`sent, this`pvs, this`pvQueue, this`warnings, this`shuttersAreOpen
      ensures Valid() && Queued() == old(Queued())
      ensures !hasPermit ==> st == Done && sent == old(sent) && warnings == old(warnings) + [PermitNotGranted]
                              && shuttersAreOpen == old(shuttersAreOpen)
      ensures hasPermit ==>
                var r := RunSteps(ShutterSteps(useShutterA, useShutterB, false, readingsA, readingsB), old(CurrentSetting()));
                && sent == old(sent) + r.puts && warnings == old(warnings) + r.warned
                && st == (if r.status != Done then r.status else if useShutterA || useShutterB then Done else Raised(AttributeError))
                && shuttersAreOpen == (if r.status == Done then false else old(shuttersAreOpen))
      ensures hasPermit && useShutterA ==> st != Done && shuttersAreOpen == old(shuttersAreOpen)
    {
      if TomoPermitRequired(hasPermit) == WarnAndReturnNone {
        warnings := warnings + [PermitNotGranted];
        return Done;
      }
      if useShutterA {
        CloseWithShutterAFails(useShutterB, readingsA, readingsB, CurrentSetting());
      }
      st := RunAll(ShutterSteps(useShutterA, useShutterB, false, readingsA, readingsB));
      if st == Done {
        shuttersAreOpen := false;
        if !(useShutterA || useShutterB) {
          st := Raised(AttributeError);
        }
      }
    }

    /**
     * `capture_projections`, `capture_white_field` and
     * `capture_dark_field`: the shutter-consistency warning, the frame type
     * written, then `_trigger_projections(n)`, recorded as `n`, unless the
     * write raised.
     */
    method Capture(f: Frame, n: int) returns (st: Status)
      requires Valid()
      modifies this`sent, this`pvs, this`pvQueue, this`warnings, this`triggered
      ensures Valid() && Queued() == old(Queued())
      ensures st == AssignStatus(Write(Cam1FrameType, VNum(FrameTypeCode(f))), old(CurrentSetting()))
      ensures sent == old(sent) + [Put(iocPrefix + "cam1:FrameType", VNum(FrameTypeCode(f)), !old(Queued()))]
      ensures warnings == old(warnings) + CaptureWarnings(f, shuttersAreOpen)
      ensures triggered == if st == Done then old(triggered) + [n] else old(triggered)
    {
      warnings := warnings + CaptureWarnings(f, shuttersAreOpen);
      st := SetPv(Cam1FrameType, VNum(FrameTypeCode(f)));
      if st == Done {
        triggered := triggered + [n];
      }
    }
  }
}
