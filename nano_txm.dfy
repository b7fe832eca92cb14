/**
 * The `NanoTXM` class of aps_32id/txm.py, with the scanlib descriptor
 * (scanlib/txm_pv.py) it declares its PVs with, run against the in-memory
 * device of the `Device` module.
 *
 * The instrument's state is the device map, the log of puts sent to it,
 * the warnings issued, the optional queue of put promises and the
 * `shutters_are_open` and `fast_shutter_enabled` flags; it also records
 * how many frames each `_trigger_projections` call was asked for. Time,
 * and the values a polled PV shows, come from the environment as finite
 * sequences of readings (see the `Polling` module); the completion
 * callbacks of deferred puts come from the environment as rounds of PV
 * names.
 */
module NanoTxmModel {
  import opened Common
  import opened PvDescriptor
  import opened Polling
  import opened Device
  import opened Promises
  import opened Frames

  /** `NanoTXM.ioc_prefix`. */
  const IocPrefix: string := "32idcPG3:"
  /** `DEFAULT_TIMEOUT`, the timeout of `wait_pv` in seconds. */
  const DefaultTimeout: real := 20.0
  /** `gap_offset`, added to the undulator gap setting. */
  const GapOffset: real := 0.17
  /** `E_RANGE`, in keV. */
  const EnergyLow: real := 6.4
  const EnergyHigh: real := 30.0
  /** `SHUTTER_OPEN` and `SHUTTER_CLOSED`, as the shutter status PVs show them. */
  const ShutterOpen: Value := VNum(0.0)
  const ShutterClosed: Value := VNum(1.0)

  // The descriptors the modelled operations write or read.
  const MotorSampleTopX: Descriptor := Fixed("32idcTXM:mcs:c3:m7.VAL", Float, false, true)
  const MotorSampleY: Descriptor := Fixed("32idcTXM:mxv:c1:m1.VAL", Float, false, true)
  const MotorSampleTopZ: Descriptor := Fixed("32idcTXM:mcs:c3:m8.VAL", Float, false, true)
  const MotorSampleRot: Descriptor := Fixed("32idcTXM:ens:c1:m1.VAL", Float, false, true)
  const ZonePlateZ: Descriptor := Fixed("32idcTXM:mcs:c0:m2.VAL", Untyped, false, true)
  const CcdMotor: Descriptor := Fixed("32idcTXM:mxv:c1:m6.VAL", Float, false, true)
  const ShutterAOpen: Descriptor := Fixed("32idb:rshtrA:Open", Untyped, true, true)
  const ShutterAClose: Descriptor := Fixed("32idb:rshtrA:Close", Untyped, true, true)
  const ShutterBOpen: Descriptor := Fixed("32idb:fbShutter:Open.PROC", Untyped, true, true)
  const ShutterBClose: Descriptor := Fixed("32idb:fbShutter:Close.PROC", Untyped, true, true)
  const DcmMvt: Descriptor := Fixed("32ida:KohzuModeBO.VAL", Untyped, true, true)
  const GapPutEnergy: Descriptor := Fixed("32id:ID32us_energy", Untyped, true, false)
  const DcmPutEnergy: Descriptor := Fixed("32ida:BraggEAO.VAL", Float, true, true)
  const Cam1FrameType: Descriptor := OnIoc("cam1:FrameType", Untyped, false, true)
  const Cam1AcquireTime: Descriptor := OnIoc("cam1:AcquireTime", Untyped, false, true)
  const Cam1AcquirePeriod: Descriptor := OnIoc("cam1:AcquirePeriod", Untyped, false, true)
  const FastShutterExposure: Descriptor := Fixed("32idcTXM:shutCam:tExpose", Untyped, false, true)
  const Tiff1AutoSave: Descriptor := OnIoc("TIFF1:AutoSave", Untyped, false, true)
  const Tiff1Capture: Descriptor := OnIoc("TIFF1:Capture", Untyped, false, true)
  const Hdf1Capture: Descriptor := OnIoc("HDF1:Capture", Untyped, false, false)

  /** Attribute names of the class that are PV descriptors (those `wait_pv` can poll here). */
  const PvAttributes: set<string> := {
    "ShutterA_Move_Status", "ShutterB_Move_Status", "HDF1_Capture", "EnergyWait",
    "ShutterA_Open", "ShutterA_Close", "ShutterB_Open", "ShutterB_Close",
    "Motor_Sample_Top_X", "Motor_SampleY", "Motor_Sample_Top_Z", "Motor_SampleRot",
    "zone_plate_z", "CCD_Motor", "DCMmvt", "GAPputEnergy", "DCMputEnergy",
    "Cam1_FrameType", "Cam1_AcquireTime", "Cam1_AcquirePeriod", "Fast_Shutter_Exposure",
    "TIFF1_AutoSave", "TIFF1_Capture"
  }

  /** The queue without its promises for `name`, in their order. */
  function Without(q: seq<PvPromise>, name: string): (r: seq<PvPromise>)
    ensures forall i :: 0 <= i < |r| ==> r[i] in q && r[i].pvName != name
    ensures forall i :: 0 <= i < |q| && q[i].pvName != name ==> q[i] in r
    ensures |r| <= |q|
  {
    if q == [] then [] else (if q[0].pvName == name then [] else [q[0]]) + Without(q[1..], name)
  }

  /** At most one promise per PV name. */
  predicate OnePerName(q: seq<PvPromise>) {
    forall i, j :: 0 <= i < j < |q| ==> q[i].pvName != q[j].pvName
  }

  lemma {:induction false} WithoutKeepsOnePerName(q: seq<PvPromise>, name: string)
    requires OnePerName(q)
    ensures OnePerName(Without(q, name))
  {
    if q != [] {
      assert OnePerName(q[1..]) by {
        forall i, j | 0 <= i < j < |q[1..]| ensures q[1..][i].pvName != q[1..][j].pvName {
          assert q[1..][i] == q[i + 1] && q[1..][j] == q[j + 1];
        }
      }
      WithoutKeepsOnePerName(q[1..], name);
      var rest := Without(q[1..], name);
      if q[0].pvName != name {
        forall p | p in rest ensures p.pvName != q[0].pvName {
          var k :| 0 <= k < |q[1..]| && q[1..][k] == p;
          assert q[k + 1] == p;
        }
        var r := [q[0]] + rest;
        forall i, j | 0 <= i < j < |r| ensures r[i].pvName != r[j].pvName {
          if i == 0 {
            assert r[j] == rest[j - 1] && r[j] in rest;
          } else {
            assert r[i] == rest[i - 1] && r[j] == rest[j - 1];
          }
        }
      }
    }
  }

  /** Last write wins: after a queued put the queue still holds one promise per PV name. */
  lemma LastWriteWins(q: seq<PvPromise>, name: string, p: PvPromise)
    requires OnePerName(q) && p.pvName == name
    ensures OnePerName(Without(q, name) + [p])
  {
    WithoutKeepsOnePerName(q, name);
    var w := Without(q, name);
    var r := w + [p];
    forall i, j | 0 <= i < j < |r| ensures r[i].pvName != r[j].pvName {
      if j == |w| {
        assert r[i] == w[i] && w[i] in w;
      } else {
        assert r[i] == w[i] && r[j] == w[j];
      }
    }
  }

  /** The warnings of scanlib `__set__` for one write. */
  function SetWarningOf(w: Write, prefix: string, hasPermit: bool, replies: map<string, Reply>): seq<Warning> {
    var name := PvName(w.pv, prefix);
    if Permitted(w.pv, hasPermit) then ScanlibSetWarnings(w.pv, name, ReplyTo(replies, name))
    else [NotSetWithoutPermit(name)]
  }

  /** The warnings of a sequence of writes, in order. */
  function SetWarnings(ws: seq<Write>, prefix: string, hasPermit: bool, replies: map<string, Reply>): seq<Warning>
    decreases |ws|
  {
    if ws == [] then []
    else SetWarnings(ws[..|ws| - 1], prefix, hasPermit, replies) + SetWarningOf(ws[|ws| - 1], prefix, hasPermit, replies)
  }

  lemma SetWarningsSnoc(ws: seq<Write>, w: Write, prefix: string, hasPermit: bool, replies: map<string, Reply>)
    ensures SetWarnings(ws + [w], prefix, hasPermit, replies) == SetWarnings(ws, prefix, hasPermit, replies) + SetWarningOf(w, prefix, hasPermit, replies)
  {
    assert (ws + [w])[..|ws|] == ws;
  }

  lemma SetWarningsStep(w0: seq<Warning>, ws: seq<Write>, w: Write, prefix: string, hasPermit: bool, replies: map<string, Reply>)
    ensures w0 + SetWarnings(ws, prefix, hasPermit, replies) + SetWarningOf(w, prefix, hasPermit, replies) == w0 + SetWarnings(ws + [w], prefix, hasPermit, replies)
  {
    SetWarningsSnoc(ws, w, prefix, hasPermit, replies);
  }

  /** The warning of a `wait_pv` that fell out of its loop on timeout. */
  function PollWarnings(readings: seq<Value>, target: Value, timeout: real, name: string): seq<Warning> {
    if PollOf(readings, target, timeout).TimedOut? then [PollTimedOut(name)] else []
  }

  /** The `(x, y, z, theta)` tuple of `sample_position`. */
  datatype Position = Position(x: Value, y: Value, z: Value, theta: Value)

  /** `sample_position()` on a device: the four stage reads, the first escaping error ending it. */
  function PositionOf(o: Owner): Result<Position>
  {
    var rx := Get(MotorSampleTopX, Some(o));
    var ry := Get(MotorSampleY, Some(o));
    var rz := Get(MotorSampleTopZ, Some(o));
    var rt := Get(MotorSampleRot, Some(o));
    if rx.ReadRaised? then Err(rx.error)
    else if ry.ReadRaised? then Err(ry.error)
    else if rz.ReadRaised? then Err(rz.error)
    else if rt.ReadRaised? then Err(rt.error)
    else Ok(Position(rx.value, ry.value, rz.value, rt.value))
  }

  /** A coordinate `move_sample` accepts: None (left alone) or a value `float` converts. */
  predicate Movable(v: Value) {
    v.VNone? || FloatOf(v).Ok?
  }

  /** How `move_sample(x, y, z, theta)` ends: the error of the first coordinate `float` rejects. */
  function SampleStatus(x: Value, y: Value, z: Value): Status {
    if !Movable(x) then Raised(FloatOf(x).error)
    else if !Movable(y) then Raised(FloatOf(y).error)
    else if !Movable(z) then Raised(FloatOf(z).error)
    else Done
  }

  /** The write of one coordinate: none when it is left out, otherwise the number `float` makes of it. */
  function CoordWrite(pv: Descriptor, v: Value): seq<Write>
    requires Movable(v)
  {
    if v.VNone? then [] else [Write(pv, VNum(FloatOf(v).value))]
  }

  /**
   * The writes of `move_sample(x, y, z, theta)`: theta as given, then each
   * given coordinate converted by `float`, up to the first one it rejects.
   */
  function SampleWrites(x: Value, y: Value, z: Value, theta: Value): seq<Write> {
    (if theta.VNone? then [] else [Write(MotorSampleRot, theta)])
    + (if !Movable(x) then []
       else CoordWrite(MotorSampleTopX, x)
            + (if !Movable(y) then []
               else CoordWrite(MotorSampleY, y)
                    + (if !Movable(z) then [] else CoordWrite(MotorSampleTopZ, z))))
  }

  predicate InEnergyRange(e: real) {
    EnergyLow <= e <= EnergyHigh
  }

  /**
   * The optics arithmetic of `move_energy`, abstracted. From the current
   * energy and detector position, the target energy and `constant_mag` it
   * either fails inside the guarded block (only a ValueError or TypeError
   * there is caught), fails in the target computation after the DCM mode
   * has been set, or gives the detector and zone-plate targets.
   */
  datatype Optics = Guarded(failure: Error) | Unguarded(failure: Error) | Targets(ccd: real, zonePlate: real)

  type Arithmetic = (real, real, real, bool) -> Optics

  /**
   * The writes of a `move_energy(e)` that runs to the end: DCM mode to 1,
   * the detector (constant magnification only), the zone plate, the
   * monochromator, the gap to `e` (backlash correction only) and then to
   * `e + gap_offset`, and the DCM mode back to `oldMode`.
   */
  function EnergyWrites(e: real, constantMag: bool, correctBacklash: bool, ccd: real, zonePlate: real, oldMode: Value): seq<Write> {
    [Write(DcmMvt, VNum(1.0))]
    + (if constantMag then [Write(CcdMotor, VNum(ccd))] else [])
    + [Write(ZonePlateZ, VNum(zonePlate)), Write(DcmPutEnergy, VNum(e))]
    + (if correctBacklash then [Write(GapPutEnergy, VNum(e))] else [])
    + [Write(GapPutEnergy, VNum(e + GapOffset)), Write(DcmMvt, oldMode)]
  }

  /** The values written to one descriptor, in order. */
  function ValuesWritten(ws: seq<Write>, pv: Descriptor): seq<Value>
    decreases |ws|
  {
    if ws == [] then [] else (if ws[0].pv == pv then [ws[0].value] else []) + ValuesWritten(ws[1..], pv)
  }

  lemma {:induction false} ValuesWrittenAppend(a: seq<Write>, b: seq<Write>, pv: Descriptor)
    ensures ValuesWritten(a + b, pv) == ValuesWritten(a, pv) + ValuesWritten(b, pv)
    decreases |a|
  {
    if a == [] {
      assert a + b == b;
    } else {
      var h := if a[0].pv == pv then [a[0].value] else [];
      assert (a + b)[0] == a[0];
      assert (a + b)[1..] == a[1..] + b;
      ValuesWrittenAppend(a[1..], b, pv);
      assert ValuesWritten(a + b, pv) == h + (ValuesWritten(a[1..], pv) + ValuesWritten(b, pv));
      AppendAssoc(h, ValuesWritten(a[1..], pv), ValuesWritten(b, pv));
    }
  }

  lemma ValuesWrittenOne(w: Write, pv: Descriptor)
    ensures ValuesWritten([w], pv) == if w.pv == pv then [w.value] else []
  {
    assert [w][1..] == [];
  }

  lemma ValuesWrittenPair(v: Write, w: Write, pv: Descriptor)
    ensures ValuesWritten([v, w], pv) == (if v.pv == pv then [v.value] else []) + (if w.pv == pv then [w.value] else [])
  {
    assert [v, w] == [v] + [w];
    ValuesWrittenAppend([v], [w], pv);
    ValuesWrittenOne(v, pv);
    ValuesWrittenOne(w, pv);
  }

  /** The descriptors `move_energy` writes are pairwise different. */
  lemma EnergyDescriptorsDistinct()
    ensures DcmMvt != CcdMotor && DcmMvt != ZonePlateZ && DcmMvt != DcmPutEnergy && DcmMvt != GapPutEnergy
    ensures CcdMotor != ZonePlateZ && CcdMotor != DcmPutEnergy && CcdMotor != GapPutEnergy
    ensures ZonePlateZ != DcmPutEnergy && ZonePlateZ != GapPutEnergy && DcmPutEnergy != GapPutEnergy
  {
    assert DcmMvt.permitRequired && !CcdMotor.permitRequired && !ZonePlateZ.permitRequired;
    assert DcmMvt.dtype == Untyped && DcmPutEnergy.dtype == Float && GapPutEnergy.dtype == Untyped;
    assert DcmMvt.wait && !GapPutEnergy.wait && CcdMotor.dtype == Float && ZonePlateZ.dtype == Untyped;
  }

  /**
   * The values `move_energy`'s writes put on one descriptor, given what
   * each of its five pieces puts there: the mode write, the detector
   * write, the zone-plate and monochromator pair, the backlash write, and
   * the final gap and mode pair.
   */
  lemma EnergyValuesWritten(e: real, constantMag: bool, correctBacklash: bool, ccd: real, zonePlate: real, oldMode: Value,
                            pv: Descriptor, va: seq<Value>, vc: seq<Value>, vm: seq<Value>, vg: seq<Value>, vt: seq<Value>)
    requires va == ValuesWritten([Write(DcmMvt, VNum(1.0))], pv)
    requires vc == ValuesWritten(if constantMag then [Write(CcdMotor, VNum(ccd))] else [], pv)
    requires vm == ValuesWritten([Write(ZonePlateZ, VNum(zonePlate)), Write(DcmPutEnergy, VNum(e))], pv)
    requires vg == ValuesWritten(if correctBacklash then [Write(GapPutEnergy, VNum(e))] else [], pv)
    requires vt == ValuesWritten([Write(GapPutEnergy, VNum(e + GapOffset)), Write(DcmMvt, oldMode)], pv)
    ensures ValuesWritten(EnergyWrites(e, constantMag, correctBacklash, ccd, zonePlate, oldMode), pv) == va + vc + vm + vg + vt
  {
    var c: seq<Write> := if constantMag then [Write(CcdMotor, VNum(ccd))] else [];
    var g: seq<Write> := if correctBacklash then [Write(GapPutEnergy, VNum(e))] else [];
    var a := [Write(DcmMvt, VNum(1.0))];
    var m := [Write(ZonePlateZ, VNum(zonePlate)), Write(DcmPutEnergy, VNum(e))];
    var t := [Write(GapPutEnergy, VNum(e + GapOffset)), Write(DcmMvt, oldMode)];
    assert EnergyWrites(e, constantMag, correctBacklash, ccd, zonePlate, oldMode) == a + c + m + g + t;
    ValuesWrittenAppend(a + c + m + g, t, pv);
    ValuesWrittenAppend(a + c + m, g, pv);
    ValuesWrittenAppend(a + c, m, pv);
    ValuesWrittenAppend(a, c, pv);
  }

  /** `move_energy` sets the DCM mode to 1 first and back to its saved value last, and nowhere else. */
  lemma EnergyModeWrites(e: real, constantMag: bool, correctBacklash: bool, ccd: real, zonePlate: real, oldMode: Value)
    ensures var ws := EnergyWrites(e, constantMag, correctBacklash, ccd, zonePlate, oldMode);
            && ws[0] == Write(DcmMvt, VNum(1.0)) && ws[|ws| - 1] == Write(DcmMvt, oldMode)
            && ValuesWritten(ws, DcmMvt) == [VNum(1.0), oldMode]
  {
    EnergyWritesEnds(e, constantMag, correctBacklash, ccd, zonePlate, oldMode);
    EnergyDescriptorsDistinct();
    EnergyPieces(e, constantMag, correctBacklash, ccd, zonePlate, oldMode, DcmMvt);
    EnergyValuesWritten(e, constantMag, correctBacklash, ccd, zonePlate, oldMode, DcmMvt, [VNum(1.0)], [], [], [], [oldMode]);
    assert [VNum(1.0)] + [] + [] + [] + [oldMode] == [VNum(1.0), oldMode];
  }

  lemma EnergyWritesEnds(e: real, constantMag: bool, correctBacklash: bool, ccd: real, zonePlate: real, oldMode: Value)
    ensures var ws := EnergyWrites(e, constantMag, correctBacklash, ccd, zonePlate, oldMode);
            && |ws| >= 5 && ws[0] == Write(DcmMvt, VNum(1.0)) && ws[|ws| - 1] == Write(DcmMvt, oldMode)
  {
    var a := [Write(DcmMvt, VNum(1.0))];
    var c: seq<Write> := if constantMag then [Write(CcdMotor, VNum(ccd))] else [];
    var m := [Write(ZonePlateZ, VNum(zonePlate)), Write(DcmPutEnergy, VNum(e))];
    var g: seq<Write> := if correctBacklash then [Write(GapPutEnergy, VNum(e))] else [];
    var t := [Write(GapPutEnergy, VNum(e + GapOffset)), Write(DcmMvt, oldMode)];
    var front := a + c + m + g;
    assert |front| >= 3;
    assert front[0] == a[0];
    assert (front + t)[0] == front[0];
    assert (front + t)[|front| + 1] == t[1];
  }

  /**
   * The undulator gap goes to E and then to E + 0.17 with backlash
   * correction, straight to E + 0.17 without.
   */
  lemma EnergyGapWrites(e: real, constantMag: bool, correctBacklash: bool, ccd: real, zonePlate: real, oldMode: Value)
    ensures ValuesWritten(EnergyWrites(e, constantMag, correctBacklash, ccd, zonePlate, oldMode), GapPutEnergy)
            == if correctBacklash then [VNum(e), VNum(e + GapOffset)] else [VNum(e + GapOffset)]
  {
    EnergyDescriptorsDistinct();
    var gap := if correctBacklash then [VNum(e)] else [];
    EnergyPieces(e, constantMag, correctBacklash, ccd, zonePlate, oldMode, GapPutEnergy);
    EnergyValuesWritten(e, constantMag, correctBacklash, ccd, zonePlate, oldMode, GapPutEnergy, [], [], [], gap, [VNum(e + GapOffset)]);
    assert [] + [] + [] + gap + [VNum(e + GapOffset)] == gap + [VNum(e + GapOffset)];
  }

  /** The monochromator is set to E exactly once. */
  lemma EnergyMonoWrites(e: real, constantMag: bool, correctBacklash: bool, ccd: real, zonePlate: real, oldMode: Value)
    ensures ValuesWritten(EnergyWrites(e, constantMag, correctBacklash, ccd, zonePlate, oldMode), DcmPutEnergy) == [VNum(e)]
  {
    EnergyDescriptorsDistinct();
    EnergyPieces(e, constantMag, correctBacklash, ccd, zonePlate, oldMode, DcmPutEnergy);
    EnergyValuesWritten(e, constantMag, correctBacklash, ccd, zonePlate, oldMode, DcmPutEnergy, [], [], [VNum(e)], [], []);
    assert [] + [] + [VNum(e)] + [] + [] == [VNum(e)];
  }

  /** The writes of `move_energy` up to and including the monochromator's. */
  lemma EnergyWritesFront(e: real, constantMag: bool, correctBacklash: bool, ccd: real, zonePlate: real, oldMode: Value)
    ensures var ws := EnergyWrites(e, constantMag, correctBacklash, ccd, zonePlate, oldMode);
            && |ws| > (if constantMag then 3 else 2)
            && ws[..(if constantMag then 4 else 3)]
               == (if constantMag then [Write(DcmMvt, VNum(1.0)), Write(CcdMotor, VNum(ccd)), Write(ZonePlateZ, VNum(zonePlate)), Write(DcmPutEnergy, VNum(e))]
                   else [Write(DcmMvt, VNum(1.0)), Write(ZonePlateZ, VNum(zonePlate)), Write(DcmPutEnergy, VNum(e))])
  {
    var a := [Write(DcmMvt, VNum(1.0))];
    var c: seq<Write> := if constantMag then [Write(CcdMotor, VNum(ccd))] else [];
    var m := [Write(ZonePlateZ, VNum(zonePlate)), Write(DcmPutEnergy, VNum(e))];
    var g: seq<Write> := if correctBacklash then [Write(GapPutEnergy, VNum(e))] else [];
    var t := [Write(GapPutEnergy, VNum(e + GapOffset)), Write(DcmMvt, oldMode)];
    var front := a + c + m;
    AppendAssoc(front, g, t);
    assert (front + (g + t))[..|front|] == front;
  }

  /** The detector moves, once, only with constant magnification. */
  lemma EnergyDetectorWrites(e: real, constantMag: bool, correctBacklash: bool, ccd: real, zonePlate: real, oldMode: Value)
    ensures ValuesWritten(EnergyWrites(e, constantMag, correctBacklash, ccd, zonePlate, oldMode), CcdMotor)
            == if constantMag then [VNum(ccd)] else []
  {
    EnergyDescriptorsDistinct();
    var ccdMoves := if constantMag then [VNum(ccd)] else [];
    EnergyPieces(e, constantMag, correctBacklash, ccd, zonePlate, oldMode, CcdMotor);
    EnergyValuesWritten(e, constantMag, correctBacklash, ccd, zonePlate, oldMode, CcdMotor, [], ccdMoves, [], [], []);
    assert [] + ccdMoves + [] + [] + [] == ccdMoves;
  }

  /** What each piece of `move_energy`'s writes puts on one descriptor. */
  lemma EnergyPieces(e: real, constantMag: bool, correctBacklash: bool, ccd: real, zonePlate: real, oldMode: Value, pv: Descriptor)
    ensures ValuesWritten([Write(DcmMvt, VNum(1.0))], pv) == if DcmMvt == pv then [VNum(1.0)] else []
    ensures ValuesWritten(if constantMag then [Write(CcdMotor, VNum(ccd))] else [], pv) == if constantMag && CcdMotor == pv then [VNum(ccd)] else []
    ensures ValuesWritten([Write(ZonePlateZ, VNum(zonePlate)), Write(DcmPutEnergy, VNum(e))], pv)
            == (if ZonePlateZ == pv then [VNum(zonePlate)] else []) + (if DcmPutEnergy == pv then [VNum(e)] else [])
    ensures ValuesWritten(if correctBacklash then [Write(GapPutEnergy, VNum(e))] else [], pv) == if correctBacklash && GapPutEnergy == pv then [VNum(e)] else []
    ensures ValuesWritten([Write(GapPutEnergy, VNum(e + GapOffset)), Write(DcmMvt, oldMode)], pv)
            == (if GapPutEnergy == pv then [VNum(e + GapOffset)] else []) + (if DcmMvt == pv then [oldMode] else [])
  {
    ValuesWrittenOne(Write(DcmMvt, VNum(1.0)), pv);
    ValuesWrittenOne(Write(CcdMotor, VNum(ccd)), pv);
    ValuesWrittenOne(Write(GapPutEnergy, VNum(e)), pv);
    ValuesWrittenPair(Write(ZonePlateZ, VNum(zonePlate)), Write(DcmPutEnergy, VNum(e)), pv);
    ValuesWrittenPair(Write(GapPutEnergy, VNum(e + GapOffset)), Write(DcmMvt, oldMode), pv);
  }

  /** What each piece of `move_energy`'s writes sends without the permit. */
  lemma EnergySendsWithoutPermit(e: real, constantMag: bool, correctBacklash: bool, ccd: real, zonePlate: real, oldMode: Value, queued: bool)
    ensures Sends([Write(DcmMvt, VNum(1.0))], IocPrefix, false, queued) == []
    ensures Sends(if constantMag then [Write(CcdMotor, VNum(ccd))] else [], IocPrefix, false, queued)
            == if constantMag then [Put(PvName(CcdMotor, IocPrefix), VNum(ccd), !queued)] else []
    ensures Sends([Write(ZonePlateZ, VNum(zonePlate)), Write(DcmPutEnergy, VNum(e))], IocPrefix, false, queued)
            == [Put(PvName(ZonePlateZ, IocPrefix), VNum(zonePlate), !queued)]
    ensures Sends(if correctBacklash then [Write(GapPutEnergy, VNum(e))] else [], IocPrefix, false, queued) == []
    ensures Sends([Write(GapPutEnergy, VNum(e + GapOffset)), Write(DcmMvt, oldMode)], IocPrefix, false, queued) == []
  {
    SendsOne(Write(DcmMvt, VNum(1.0)), IocPrefix, false, queued);
    SendsOne(Write(CcdMotor, VNum(ccd)), IocPrefix, false, queued);
    SendsOne(Write(GapPutEnergy, VNum(e)), IocPrefix, false, queued);
    SendsPair(Write(ZonePlateZ, VNum(zonePlate)), Write(DcmPutEnergy, VNum(e)), IocPrefix, false, queued);
    SendsPair(Write(GapPutEnergy, VNum(e + GapOffset)), Write(DcmMvt, oldMode), IocPrefix, false, queued);
  }

  /**
   * Without the permit only the detector and the zone plate are sent: the
   * DCM mode, monochromator and gap descriptors are permit_required.
   */
  lemma EnergyWithoutPermit(e: real, constantMag: bool, correctBacklash: bool, ccd: real, zonePlate: real, oldMode: Value, queued: bool)
    ensures Sends(EnergyWrites(e, constantMag, correctBacklash, ccd, zonePlate, oldMode), IocPrefix, false, queued)
            == (if constantMag then [Put(PvName(CcdMotor, IocPrefix), VNum(ccd), !queued)] else [])
               + [Put(PvName(ZonePlateZ, IocPrefix), VNum(zonePlate), !queued)]
  {
    var c: seq<Write> := if constantMag then [Write(CcdMotor, VNum(ccd))] else [];
    var g: seq<Write> := if correctBacklash then [Write(GapPutEnergy, VNum(e))] else [];
    var a := [Write(DcmMvt, VNum(1.0))];
    var m := [Write(ZonePlateZ, VNum(zonePlate)), Write(DcmPutEnergy, VNum(e))];
    var t := [Write(GapPutEnergy, VNum(e + GapOffset)), Write(DcmMvt, oldMode)];
    assert EnergyWrites(e, constantMag, correctBacklash, ccd, zonePlate, oldMode) == a + c + m + g + t;
    EnergySendsWithoutPermit(e, constantMag, correctBacklash, ccd, zonePlate, oldMode, queued);
    var zone := [Put(PvName(ZonePlateZ, IocPrefix), VNum(zonePlate), !queued)];
    var sc := if constantMag then [Put(PvName(CcdMotor, IocPrefix), VNum(ccd), !queued)] else [];
    SendsAppend(a, c, IocPrefix, false, queued);
    assert Sends(a + c, IocPrefix, false, queued) == sc;
    SendsAppend(a + c, m, IocPrefix, false, queued);
    assert Sends(a + c + m, IocPrefix, false, queued) == sc + zone;
    SendsAppend(a + c + m, g, IocPrefix, false, queued);
    assert Sends(a + c + m + g, IocPrefix, false, queued) == sc + zone;
    SendsAppend(a + c + m + g, t, IocPrefix, false, queued);
  }

  /** Python's `<` on two strings: lexicographic by code point. */
  predicate StrLess(a: string, b: string) {
    if a == [] then b != []
    else if b == [] then false
    else if a[0] != b[0] then a[0] < b[0]
    else StrLess(a[1..], b[1..])
  }

  lemma {:induction false} StrLessIrreflexive(a: string)
    ensures !StrLess(a, a)
  {
    if a != [] {
      StrLessIrreflexive(a[1..]);
    }
  }

  lemma {:induction false} StrLessAsymmetric(a: string, b: string)
    ensures StrLess(a, b) ==> !StrLess(b, a)
  {
    if a != [] && b != [] && a[0] == b[0] {
      StrLessAsymmetric(a[1..], b[1..]);
    }
  }

  /**
   * Python 3's `a < b` on two values: numbers by value, strings by code
   * point, lists lexicographically (the first position whose elements are
   * not equal decides, by `<` on those elements; otherwise the shorter list
   * is smaller). Any other pair, None with None included, raises TypeError.
   */
  function PyLess(a: Value, b: Value): (r: Result<bool>)
    ensures r.Ok? ==> (a.VNum? && b.VNum?) || (a.VStr? && b.VStr?) || (a.VList? && b.VList?)
    ensures r.Err? ==> r.error == TypeError
    decreases a, 1
  {
    match (a, b)
    case (VNum(x), VNum(y)) => Ok(x < y)
    case (VStr(x), VStr(y)) => Ok(StrLess(x, y))
    case (VList(x), VList(y)) => ListLess(x, y)
    case _ => Err(TypeError)
  }

  /** Python 3's `<` on two lists. */
  function ListLess(x: seq<Value>, y: seq<Value>): (r: Result<bool>)
    ensures r.Err? ==> r.error == TypeError
    decreases x, 0
  {
    if x == [] || y == [] then Ok(|x| < |y|)
    else if x[0] == y[0] then ListLess(x[1..], y[1..])
    else PyLess(x[0], y[0])
  }

  /** No value other than None is less than itself; None is not comparable with itself. */
  lemma {:induction false} PyLessIrreflexive(a: Value)
    ensures PyLess(a, a) == if a.VNone? then Err(TypeError) else Ok(false)
  {
    match a
    case VStr(x) => StrLessIrreflexive(x);
    case VList(x) => ListLessIrreflexive(x);
    case _ =>
  }

  lemma {:induction false} ListLessIrreflexive(x: seq<Value>)
    ensures ListLess(x, x) == Ok(false)
  {
    if x != [] {
      ListLessIrreflexive(x[1..]);
    }
  }

  /** `<` is asymmetric, and raises for a pair exactly when it raises for the swapped pair. */
  lemma {:induction false} PyLessAsymmetric(a: Value, b: Value)
    ensures PyLess(a, b).Err? <==> PyLess(b, a).Err?
    ensures PyLess(a, b) == Ok(true) ==> PyLess(b, a) == Ok(false)
    decreases a, 1
  {
    match (a, b)
    case (VStr(x), VStr(y)) => StrLessAsymmetric(x, y);
    case (VList(x), VList(y)) => ListLessAsymmetric(x, y);
    case _ =>
  }

  lemma {:induction false} ListLessAsymmetric(x: seq<Value>, y: seq<Value>)
    ensures ListLess(x, y).Err? <==> ListLess(y, x).Err?
    ensures ListLess(x, y) == Ok(true) ==> ListLess(y, x) == Ok(false)
    decreases x, 0
  {
    if x != [] && y != [] {
      if x[0] == y[0] {
        ListLessAsymmetric(x[1..], y[1..]);
      } else {
        PyLessAsymmetric(x[0], y[0]);
      }
    }
  }

  /**
   * `exposure_time`: Python 3's `max` of the two camera times, which keeps
   * the first unless the second is greater; a TypeError from the comparison
   * gives None.
   */
  function ExposureOf(acquireTime: Value, acquirePeriod: Value): (r: Value)
    ensures r.VNone? <==> PyLess(acquireTime, acquirePeriod).Err?
    ensures !r.VNone? ==> r == acquireTime || r == acquirePeriod
    ensures !r.VNone? ==> PyLess(r, acquireTime) == Ok(false) && PyLess(r, acquirePeriod) == Ok(false)
    ensures !((acquireTime.VNum? && acquirePeriod.VNum?) || (acquireTime.VStr? && acquirePeriod.VStr?) || (acquireTime.VList? && acquirePeriod.VList?)) ==> r.VNone?
    ensures acquireTime.VNum? && acquirePeriod.VNum? ==> r.VNum? && r.num >= acquireTime.num && r.num >= acquirePeriod.num
    ensures acquireTime.VStr? && acquirePeriod.VStr? ==> !r.VNone?
    ensures acquireTime == acquirePeriod ==> r == (if acquireTime.VNone? then VNone else acquireTime)
  {
    PyLessIrreflexive(acquireTime);
    PyLessIrreflexive(acquirePeriod);
    PyLessAsymmetric(acquireTime, acquirePeriod);
    match PyLess(acquireTime, acquirePeriod)
    case Ok(greater) => if greater then acquirePeriod else acquireTime
    case Err(_) => VNone
  }

  /** The writes of the `exposure_time` setter. */
  function ExposureWrites(v: Value): seq<Write> {
    [Write(Cam1AcquireTime, v), Write(Cam1AcquirePeriod, v), Write(FastShutterExposure, v)]
  }

  /** The capture-stopping writes `run_scan` makes first on exit. */
  function StopWrites(): seq<Write> {
    [Write(Tiff1AutoSave, VStr("No")), Write(Tiff1Capture, VNum(0.0)), Write(Hdf1Capture, VNum(0.0))]
  }

  /** The shutter writes of `open_shutters` (`opening`) or `close_shutters`. */
  function ShutterWrites(useA: bool, useB: bool, opening: bool): seq<Write> {
    (if useA then [Write(if opening then ShutterAOpen else ShutterAClose, VNum(1.0))] else [])
    + (if useB then [Write(if opening then ShutterBOpen else ShutterBClose, VNum(1.0))] else [])
  }

  /** What `run_scan` saves on entry. */
  datatype Snapshot = Snapshot(position: Position, energy: Value, exposure: Value, fastShutter: bool)

  /** The cast warnings of `sample_position()`: those of its reads up to the first that raises. */
  function PositionWarnings(o: Owner): seq<Warning> {
    var rx := Get(MotorSampleTopX, Some(o));
    var ry := Get(MotorSampleY, Some(o));
    var rz := Get(MotorSampleTopZ, Some(o));
    CastWarnings(rx)
    + if rx.ReadRaised? then []
      else CastWarnings(ry)
           + if ry.ReadRaised? then []
             else CastWarnings(rz) + if rz.ReadRaised? then [] else CastWarnings(Get(MotorSampleRot, Some(o)))
  }

  /** `v or 0.`: the falsy values (None, zero, empty text, the empty list) give 0.0. */
  function OrZero(v: Value): (r: Value)
    ensures r.VNone? ==> false
  {
    if v.VNone? || v == VNum(0.0) || v == VStr([]) || v == VList([]) then VNum(0.0) else v
  }

  /** The error `format` raises for a `.2f` field: none for a number, ValueError for text, TypeError otherwise. */
  function FixedFailure(v: Value): Option<Error> {
    match v
    case VNum(_) => None
    case VStr(_) => Some(ValueError)
    case _ => Some(TypeError)
  }

  /** The four stage reads are through float descriptors, so the only error one of them raises is a ValueError. */
  lemma {:induction false} PositionErrors(o: Owner)
    ensures PositionOf(o).Err? ==> PositionOf(o).error == ValueError
  {
    var rx, ry := Get(MotorSampleTopX, Some(o)), Get(MotorSampleY, Some(o));
    var rz, rt := Get(MotorSampleTopZ, Some(o)), Get(MotorSampleRot, Some(o));
    assert rx.ReadRaised? ==> rx.error == ValueError;
    assert ry.ReadRaised? ==> ry.error == ValueError;
    assert rz.ReadRaised? ==> rz.error == ValueError;
    assert rt.ReadRaised? ==> rt.error == ValueError;
  }

  /** The first of the move log's four `.2f` fields, each taken `or 0.`, that `format` rejects. */
  function LogFormatError(p: Position): Option<Error> {
    var fx, fy, fz := FixedFailure(OrZero(p.x)), FixedFailure(OrZero(p.y)), FixedFailure(OrZero(p.z));
    if fx.Some? then fx else if fy.Some? then fy else if fz.Some? then fz else FixedFailure(OrZero(p.theta))
  }

  /** How the closing log of `move_sample` ends, and the cast warnings its reads issue. */
  datatype Logged = Logged(status: Status, warnings: seq<Warning>)

  /**
   * The closing log of `move_sample`: the four stage reads formatted to two
   * decimals; after a ValueError, from a read or from the format, the four
   * reads once more into a plain message, whose own ValueError escapes. Any
   * other error escapes from the first attempt.
   */
  function SampleLog(o: Owner): Logged {
    var first := PositionOf(o);
    var failure := if first.Err? then Some(first.error) else LogFormatError(first.value);
    if failure.None? then Logged(Done, PositionWarnings(o))
    else if failure.value != ValueError then Logged(Raised(failure.value), PositionWarnings(o))
    else Logged(if first.Err? then Raised(first.error) else Done, PositionWarnings(o) + PositionWarnings(o))
  }

  /** The ways `move_sample` can end: normally, or with the ValueError or TypeError of `float` or `format`. */
  predicate MoveOutcome(st: Status) {
    st == Done || st == Raised(ValueError) || st == Raised(TypeError)
  }

  /** Converting the coordinates raises nothing but the ValueError and TypeError of `float`. */
  lemma {:induction false} SampleStatusErrors(x: Value, y: Value, z: Value)
    ensures MoveOutcome(SampleStatus(x, y, z))
  {
    assert FloatOf(x).Err? ==> MoveOutcome(Raised(FloatOf(x).error));
    assert FloatOf(y).Err? ==> MoveOutcome(Raised(FloatOf(y).error));
    assert FloatOf(z).Err? ==> MoveOutcome(Raised(FloatOf(z).error));
  }

  /** The closing log raises nothing but a read's ValueError and the errors of `format`. */
  lemma {:induction false} SampleLogErrors(o: Owner)
    ensures MoveOutcome(SampleLog(o).status)
  {
    PositionErrors(o);
    var first := PositionOf(o);
    if first.Err? {
      assert SampleLog(o).status == Raised(ValueError);
    } else {
      var f := LogFormatError(first.value);
      assert f == None || f == Some(ValueError) || f == Some(TypeError);
      assert SampleLog(o).status == (if f.None? || f == Some(ValueError) then Done else Raised(TypeError));
    }
  }

  /** What the device holds for a descriptor. */
  function Stored(o: Owner, pv: Descriptor): Value
    requires WellFormed(pv.template)
  {
    DeviceGet(o.pvs, PvName(pv, o.prefix))
  }

  /** The cast warning of reading a stage that holds a number, or nothing. */
  function MissingWarning(o: Owner, pv: Descriptor): seq<Warning>
    requires WellFormed(pv.template)
  {
    if Stored(o, pv).VNone? then [CastFailed(PvName(pv, o.prefix))] else []
  }

  /** A stage holding a number or nothing reads as a number or None, warning only for nothing. */
  lemma NumberOrNothingRead(o: Owner, pv: Descriptor)
    requires WellFormed(pv.template) && pv.dtype.Float?
    requires Stored(o, pv).VNone? || Stored(o, pv).VNum?
    ensures Get(pv, Some(o)) == Got(Stored(o, pv), if Stored(o, pv).VNone? then Some(CastFailed(PvName(pv, o.prefix))) else None)
    ensures CastWarnings(Get(pv, Some(o))) == MissingWarning(o, pv)
    ensures FixedFailure(OrZero(Stored(o, pv))) == None
  {
  }

  /** The x, y and z stages hold numbers or nothing. */
  predicate PlainStages(o: Owner) {
    && (Stored(o, MotorSampleTopX).VNone? || Stored(o, MotorSampleTopX).VNum?)
    && (Stored(o, MotorSampleY).VNone? || Stored(o, MotorSampleY).VNum?)
    && (Stored(o, MotorSampleTopZ).VNone? || Stored(o, MotorSampleTopZ).VNum?)
  }

  /** The cast warnings of reading the x, y and z stages when they hold numbers or nothing. */
  function PlainWarnings(o: Owner): seq<Warning> {
    MissingWarning(o, MotorSampleTopX) + MissingWarning(o, MotorSampleY) + MissingWarning(o, MotorSampleTopZ)
  }

  lemma {:induction false} PlainStagesRead(o: Owner)
    requires PlainStages(o)
    ensures !Get(MotorSampleTopX, Some(o)).ReadRaised? && !Get(MotorSampleY, Some(o)).ReadRaised? && !Get(MotorSampleTopZ, Some(o)).ReadRaised?
    ensures CastWarnings(Get(MotorSampleTopX, Some(o))) + CastWarnings(Get(MotorSampleY, Some(o))) + CastWarnings(Get(MotorSampleTopZ, Some(o))) == PlainWarnings(o)
    ensures PositionOf(o).Ok? ==> LogFormatError(PositionOf(o).value) == FixedFailure(OrZero(PositionOf(o).value.theta))
  {
    NumberOrNothingRead(o, MotorSampleTopX);
    NumberOrNothingRead(o, MotorSampleY);
    NumberOrNothingRead(o, MotorSampleTopZ);
  }

  /**
   * Stages that hold numbers, or nothing at all, log without error: one cast
   * warning for each stage that holds nothing, as on a device that never
   * had them set.
   */
  lemma {:induction false} PlainStagesLog(o: Owner)
    requires PlainStages(o) && (Stored(o, MotorSampleRot).VNone? || Stored(o, MotorSampleRot).VNum?)
    ensures SampleLog(o) == Logged(Done, PlainWarnings(o) + MissingWarning(o, MotorSampleRot))
  {
    PlainStagesRead(o);
    NumberOrNothingRead(o, MotorSampleRot);
    AppendAssoc(CastWarnings(Get(MotorSampleTopX, Some(o))), CastWarnings(Get(MotorSampleY, Some(o))), CastWarnings(Get(MotorSampleTopZ, Some(o))) + MissingWarning(o, MotorSampleRot));
    AppendAssoc(CastWarnings(Get(MotorSampleY, Some(o))), CastWarnings(Get(MotorSampleTopZ, Some(o))), MissingWarning(o, MotorSampleRot));
  }

  /** A stage holding text that is not a number raises a ValueError when read. */
  lemma TextRead(o: Owner, pv: Descriptor)
    requires WellFormed(pv.template) && pv.dtype.Float?
    requires Stored(o, pv).VStr? && ParseFloat(Stored(o, pv).str).None?
    ensures Get(pv, Some(o)) == ReadRaised(ValueError)
  {
  }

  /** A stage holding a nonempty list reads back as the list, with a cast warning. */
  lemma ListRead(o: Owner, pv: Descriptor)
    requires WellFormed(pv.template) && pv.dtype.Float?
    requires Stored(o, pv).VList? && Stored(o, pv) != VList([])
    ensures Get(pv, Some(o)) == Got(Stored(o, pv), Some(CastFailed(PvName(pv, o.prefix))))
    ensures FixedFailure(OrZero(Stored(o, pv))) == Some(TypeError)
  {
  }

  /**
   * A rotation stage holding text that is not a number makes both attempts
   * of the log raise: the move ends in a ValueError after reading the
   * stages twice.
   */
  lemma {:induction false} TextThetaLog(o: Owner)
    requires PlainStages(o) && Stored(o, MotorSampleRot).VStr? && ParseFloat(Stored(o, MotorSampleRot).str).None?
    ensures SampleLog(o) == Logged(Raised(ValueError), PlainWarnings(o) + PlainWarnings(o))
  {
    PlainStagesRead(o);
    TextRead(o, MotorSampleRot);
    var rx, ry := Get(MotorSampleTopX, Some(o)), Get(MotorSampleY, Some(o));
    var rz, rt := Get(MotorSampleTopZ, Some(o)), Get(MotorSampleRot, Some(o));
    assert PositionOf(o) == Err(ValueError);
    AppendAssoc(CastWarnings(rx), CastWarnings(ry), CastWarnings(rz));
    assert CastWarnings(rt) == [];
    assert PositionWarnings(o) == CastWarnings(rx) + (CastWarnings(ry) + (CastWarnings(rz) + CastWarnings(rt)));
    assert PositionWarnings(o) == PlainWarnings(o);
  }

  /**
   * A rotation stage holding a nonempty list reads back with a cast warning,
   * and its `.2f` field raises a TypeError that no handler catches.
   */
  lemma {:induction false} ListThetaLog(o: Owner)
    requires PlainStages(o) && Stored(o, MotorSampleRot).VList? && Stored(o, MotorSampleRot) != VList([])
    ensures SampleLog(o) == Logged(Raised(TypeError), PlainWarnings(o) + [CastFailed(PvName(MotorSampleRot, o.prefix))])
  {
    PlainStagesRead(o);
    ListRead(o, MotorSampleRot);
    var rx, ry := Get(MotorSampleTopX, Some(o)), Get(MotorSampleY, Some(o));
    var rz, rt := Get(MotorSampleTopZ, Some(o)), Get(MotorSampleRot, Some(o));
    assert PositionOf(o) == Ok(Position(rx.value, ry.value, rz.value, rt.value));
    assert LogFormatError(PositionOf(o).value) == Some(TypeError);
    AppendAssoc(CastWarnings(rx), CastWarnings(ry), CastWarnings(rz) + CastWarnings(rt));
    AppendAssoc(CastWarnings(ry), CastWarnings(rz), CastWarnings(rt));
    assert PositionWarnings(o) == CastWarnings(rx) + (CastWarnings(ry) + (CastWarnings(rz) + CastWarnings(rt)));
    assert PositionWarnings(o) == PlainWarnings(o) + [CastFailed(PvName(MotorSampleRot, o.prefix))];
    assert SampleLog(o) == Logged(Raised(TypeError), PositionWarnings(o));
  }

  /** The value `exposure_time` reads on a device. */
  function ExposureOn(o: Owner): Value {
    ExposureOf(DeviceGet(o.pvs, PvName(Cam1AcquireTime, o.prefix)), DeviceGet(o.pvs, PvName(Cam1AcquirePeriod, o.prefix)))
  }

  /** The snapshot `run_scan` takes on entry, or the error that ends the entry. */
  function SnapshotOf(o: Owner, fastShutter: bool): Result<Snapshot> {
    var e := Get(DcmPutEnergy, Some(o));
    match PositionOf(o)
    case Err(err) => Err(err)
    case Ok(position) =>
      if e.ReadRaised? then Err(e.error)
      else Ok(Snapshot(position, e.value, ExposureOn(o), fastShutter))
  }

  /**
   * The guarded block of `move_energy` on the values read: the old
   * wavelength `1240 / (kev * 1000)` is computed first, so a monochromator
   * reading that is not a number raises TypeError and a zero reading
   * ZeroDivisionError before the detector value is used; a detector value
   * that is not a number then raises TypeError in the first square root.
   */
  function Optical(oldEnergy: Value, oldCcd: Value, e: real, constantMag: bool, optics: Arithmetic): Optics {
    if !oldEnergy.VNum? then Guarded(TypeError)
    else if oldEnergy.num == 0.0 then Guarded(ZeroDivisionError)
    else if !oldCcd.VNum? then Guarded(TypeError)
    else optics(oldEnergy.num, oldCcd.num, e, constantMag)
  }

  /**
   * A `move_energy` call, planned on the device it starts from: how it
   * ends, the warnings it issues before its first write, and its writes.
   */
  datatype EnergyMove = EnergyMove(status: Status, warned: seq<Warning>, writes: seq<Write>)

  /**
   * `move_energy(energy, constant_mag, correct_backlash)`. A non-number
   * makes the range comparison raise TypeError and one outside the range
   * raises EnergyError, both before any read. Then the monochromator
   * energy and the detector position are read; the arithmetic on them
   * decides the rest, and the DCM mode is read just before it is set to 1.
   */
  function PlanEnergyMove(o: Owner, energy: Value, constantMag: bool, correctBacklash: bool, optics: Arithmetic): (m: EnergyMove)
    ensures !energy.VNum? ==> m == EnergyMove(Raised(TypeError), [], [])
    ensures energy.VNum? && !InEnergyRange(energy.num) ==> m == EnergyMove(Raised(EnergyError), [], [])
    ensures energy.VNum? && InEnergyRange(energy.num) ==>
              var re, rc := Get(DcmPutEnergy, Some(o)), Get(CcdMotor, Some(o));
              && (re.ReadRaised? ==> m == EnergyMove(Raised(re.error), [], []))
              && (re.Got? && rc.ReadRaised? ==> m == EnergyMove(Raised(rc.error), CastWarnings(re), []))
              && (re.Got? && rc.Got? && re.value == VNum(0.0) ==>
                    m == EnergyMove(Raised(ZeroDivisionError), CastWarnings(re) + CastWarnings(rc), []))
              && (re.Got? && rc.Got? && (!re.value.VNum? || (re.value.num != 0.0 && !rc.value.VNum?)) ==>
                    m == EnergyMove(Done, CastWarnings(re) + CastWarnings(rc) + [ArithmeticWarning], []))
    ensures m.writes != [] ==> m.writes[0] == Write(DcmMvt, VNum(1.0)) && InEnergyRange(energy.num)
    ensures m.status.Done? && m.writes != [] ==> m.writes[|m.writes| - 1] == Write(DcmMvt, DeviceGet(o.pvs, PvName(DcmMvt, o.prefix)))
    ensures m.status.Done? || m.status.Raised?
  {
    if !energy.VNum? then EnergyMove(Raised(TypeError), [], [])
    else if !InEnergyRange(energy.num) then EnergyMove(Raised(EnergyError), [], [])
    else
      var re := Get(DcmPutEnergy, Some(o));
      if re.ReadRaised? then EnergyMove(Raised(re.error), [], [])
      else
        var rc := Get(CcdMotor, Some(o));
        if rc.ReadRaised? then EnergyMove(Raised(rc.error), CastWarnings(re), [])
        else
          var seen := CastWarnings(re) + CastWarnings(rc);
          var plan := Optical(re.value, rc.value, energy.num, constantMag, optics);
          match plan
          case Guarded(err) =>
            if err == ValueError || err == TypeError then EnergyMove(Done, seen + [ArithmeticWarning], [])
            else EnergyMove(Raised(err), seen, [])
          case Unguarded(err) => EnergyMove(Raised(err), seen, [Write(DcmMvt, VNum(1.0))])
          case Targets(ccd, zonePlate) =>
            EnergyModeWrites(energy.num, constantMag, correctBacklash, ccd, zonePlate, DeviceGet(o.pvs, PvName(DcmMvt, o.prefix)));
            EnergyMove(Done, seen, EnergyWrites(energy.num, constantMag, correctBacklash, ccd, zonePlate, DeviceGet(o.pvs, PvName(DcmMvt, o.prefix))))
  }

  /**
   * One shutter's part of `open_shutters`/`close_shutters` when enabled:
   * its write, then `wait_pv` on its status PV with the default timeout;
   * `stuck` when the supplied readings ran out first.
   */
  datatype ShutterStep = ShutterStep(stuck: bool, writes: seq<Write>, warned: seq<Warning>)

  function ShutterStepOf(use: bool, pv: Descriptor, statusName: string, target: Value, readings: seq<Value>,
                         prefix: string, hasPermit: bool, replies: map<string, Reply>): ShutterStep {
    if !use then ShutterStep(false, [], [])
    else
      var w := Write(pv, VNum(1.0));
      ShutterStep(PollOf(readings, target, DefaultTimeout).Exhausted?, [w],
                  SetWarningOf(w, prefix, hasPermit, replies) + PollWarnings(readings, target, DefaultTimeout, statusName))
  }

  /** What the teardown stages depend on besides the device and the readings. */
  datatype Setup = Setup(prefix: string, hasPermit: bool, queued: bool, replies: map<string, Reply>, useA: bool, useB: bool)

  /** How a stage of the `run_scan` teardown ends: its status, its puts and its warnings. */
  datatype Outcome = Outcome(status: Status, puts: seq<Put>, warned: seq<Warning>)

  /** Stage `a`, then stage `b` only when `a` ended normally. */
  function Then(a: Outcome, b: Outcome): Outcome {
    if a.status != Done then a else Outcome(b.status, a.puts + b.puts, a.warned + b.warned)
  }

  /** A stage with outcome `t` ended with `st` and took the log from `s0`, `w0` to `s1`, `w1`. */
  predicate Ran(t: Outcome, st: Status, s0: seq<Put>, w0: seq<Warning>, s1: seq<Put>, w1: seq<Warning>) {
    st == t.status && s1 == s0 + t.puts && w1 == w0 + t.warned
  }

  /** The capture stop: three puts, then `wait_pv('HDF1_Capture', 0)`, whose timeout only warns. */
  function StopOf(c: Setup, hdfReadings: seq<Value>): Outcome {
    Outcome(if PollOf(hdfReadings, VNum(0.0), DefaultTimeout).Exhausted? then StillPolling else Done,
            Sends(StopWrites(), c.prefix, c.hasPermit, c.queued),
            SetWarnings(StopWrites(), c.prefix, c.hasPermit, c.replies)
            + PollWarnings(hdfReadings, VNum(0.0), DefaultTimeout, "HDF1_Capture"))
  }

  /**
   * `move_sample(*init_position)` on the device `pvs`: the writes up to the
   * first coordinate `float` rejects, then, when all converted, the
   * closing log read on the device the writes left.
   */
  function SampleOf(c: Setup, pvs: map<string, Value>, p: Position): (r: Outcome)
    ensures r.puts == Sends(SampleWrites(p.x, p.y, p.z, p.theta), c.prefix, c.hasPermit, c.queued)
    ensures MoveOutcome(r.status)
  {
    var ws := SampleWrites(p.x, p.y, p.z, p.theta);
    var puts := Sends(ws, c.prefix, c.hasPermit, c.queued);
    var setWarned := SetWarnings(ws, c.prefix, c.hasPermit, c.replies);
    SampleStatusErrors(p.x, p.y, p.z);
    if SampleStatus(p.x, p.y, p.z) != Done then Outcome(SampleStatus(p.x, p.y, p.z), puts, setWarned)
    else
      var o := Owner(c.prefix, Replay(pvs, c.replies, puts));
      SampleLogErrors(o);
      Outcome(SampleLog(o).status, puts, setWarned + SampleLog(o).warnings)
  }

  /**
   * The energy step on the device `pvs`: `energy()` is read, and only when
   * it differs from the saved energy `move_energy(init_E)` runs with
   * constant magnification and backlash correction, its EnergyError being
   * swallowed.
   */
  function RestoreEnergyOf(c: Setup, pvs: map<string, Value>, saved: Value, optics: Arithmetic): (r: Outcome)
    ensures r.status != Raised(EnergyError)
    ensures var now := Get(DcmPutEnergy, Some(Owner(c.prefix, pvs)));
            && (now.ReadRaised? ==> r == Outcome(Raised(now.error), [], []))
            && (now.Got? && now.value == saved ==> r == Outcome(Done, [], CastWarnings(now)))
            && (r.puts != [] ==> now.Got? && now.value != saved && saved.VNum? && InEnergyRange(saved.num))
            && (now.Got? && now.value != saved && (!saved.VNum? || !InEnergyRange(saved.num)) ==>
                  r.puts == [] && r.status == (if saved.VNum? then Done else Raised(TypeError)))
  {
    var o := Owner(c.prefix, pvs);
    var now := Get(DcmPutEnergy, Some(o));
    if now.ReadRaised? then Outcome(Raised(now.error), [], [])
    else if now.value == saved then Outcome(Done, [], CastWarnings(now))
    else
      var m := PlanEnergyMove(o, saved, true, true, optics);
      Outcome(if m.status == Raised(EnergyError) then Done else m.status,
              Sends(m.writes, c.prefix, c.hasPermit, c.queued),
              CastWarnings(now) + m.warned + SetWarnings(m.writes, c.prefix, c.hasPermit, c.replies))
  }

  /**
   * `close_shutters()`: without the permit one warning; with it the
   * enabled shutters are closed in turn, stopping at a wait whose readings
   * ran out, and having neither enabled warns.
   */
  function CloseOf(c: Setup, readingsA: seq<Value>, readingsB: seq<Value>): (r: Outcome)
    ensures r.status == Done || r.status == StillPolling
    ensures !c.hasPermit ==> r == Outcome(Done, [], [ShuttersNotClosed])
    ensures c.hasPermit && r.status == Done ==> r.puts == Sends(ShutterWrites(c.useA, c.useB, false), c.prefix, c.hasPermit, c.queued)
  {
    if !c.hasPermit then Outcome(Done, [], [ShuttersNotClosed])
    else
      var a := ShutterStepOf(c.useA, ShutterAClose, "ShutterA_Move_Status", ShutterClosed, readingsA, c.prefix, c.hasPermit, c.replies);
      var b := ShutterStepOf(c.useB, ShutterBClose, "ShutterB_Move_Status", ShutterClosed, readingsB, c.prefix, c.hasPermit, c.replies);
      var st := if a.stuck || b.stuck then StillPolling else Done;
      assert st == Done ==> a.writes + b.writes == ShutterWrites(c.useA, c.useB, false);
      Outcome(st, Sends(if a.stuck then a.writes else a.writes + b.writes, c.prefix, c.hasPermit, c.queued),
              (if a.stuck then a.warned else a.warned + b.warned)
              + (if st == Done && !c.useA && !c.useB then [NeitherShutterEnabled] else []))
  }

  /** `exposure_time = init_exposure`: its three puts. */
  function ResetExposureOf(c: Setup, exposure: Value): Outcome {
    Outcome(Done, Sends(ExposureWrites(exposure), c.prefix, c.hasPermit, c.queued),
            SetWarnings(ExposureWrites(exposure), c.prefix, c.hasPermit, c.replies))
  }

  function CloseAndResetOf(c: Setup, exposure: Value, readingsA: seq<Value>, readingsB: seq<Value>): Outcome {
    Then(CloseOf(c, readingsA, readingsB), ResetExposureOf(c, exposure))
  }

  function RestoreAndResetOf(c: Setup, pvs: map<string, Value>, snap: Snapshot, optics: Arithmetic,
                             readingsA: seq<Value>, readingsB: seq<Value>): Outcome {
    Then(RestoreEnergyOf(c, pvs, snap.energy, optics), CloseAndResetOf(c, snap.exposure, readingsA, readingsB))
  }

  function ReturnAndRestoreOf(c: Setup, pvs: map<string, Value>, snap: Snapshot, optics: Arithmetic,
                              readingsA: seq<Value>, readingsB: seq<Value>): Outcome {
    var s := SampleOf(c, pvs, snap.position);
    Then(s, RestoreAndResetOf(c, Replay(pvs, c.replies, s.puts), snap, optics, readingsA, readingsB))
  }

  /**
   * The teardown of `run_scan` on the device `pvs`, after the fast-shutter
   * flag is restored: captures stopped, sample moved back, energy
   * restored, shutters closed and the exposure time reset, each stage
   * running on the device the earlier ones left, a failure ending it.
   */
  function TeardownOf(c: Setup, pvs: map<string, Value>, snap: Snapshot, optics: Arithmetic,
                      hdfReadings: seq<Value>, readingsA: seq<Value>, readingsB: seq<Value>): (r: Outcome)
    ensures r.status != Raised(EnergyError)
  {
    var s := StopOf(c, hdfReadings);
    var t := ReturnAndRestoreOf(c, Replay(pvs, c.replies, s.puts), snap, optics, readingsA, readingsB);
    assert t.status != Raised(EnergyError);
    Then(s, t)
  }

  /**
   * The five teardown stages in order: the first stage that does not end
   * normally ends the teardown with its status, and no later stage puts
   * or warns; when all end normally the log is the five stages' logs in
   * order.
   */
  lemma {:induction false} TeardownStages(c: Setup, pvs: map<string, Value>, snap: Snapshot, optics: Arithmetic,
                                          hdfReadings: seq<Value>, readingsA: seq<Value>, readingsB: seq<Value>)
    ensures var t := TeardownOf(c, pvs, snap, optics, hdfReadings, readingsA, readingsB);
            var s1 := StopOf(c, hdfReadings);
            var d1 := Replay(pvs, c.replies, s1.puts);
            var s2 := SampleOf(c, d1, snap.position);
            var s3 := RestoreEnergyOf(c, Replay(d1, c.replies, s2.puts), snap.energy, optics);
            var s4 := CloseOf(c, readingsA, readingsB);
            var s5 := ResetExposureOf(c, snap.exposure);
            && (s1.status != Done ==> t == s1)
            && (s1.status == Done && s2.status != Done ==>
                  t == Outcome(s2.status, s1.puts + s2.puts, s1.warned + s2.warned))
            && (s1.status == Done && s2.status == Done && s3.status != Done ==>
                  t == Outcome(s3.status, s1.puts + s2.puts + s3.puts, s1.warned + s2.warned + s3.warned))
            && (s1.status == Done && s2.status == Done && s3.status == Done && s4.status != Done ==>
                  t == Outcome(s4.status, s1.puts + s2.puts + s3.puts + s4.puts,
                               s1.warned + s2.warned + s3.warned + s4.warned))
            && (s1.status == Done && s2.status == Done && s3.status == Done && s4.status == Done ==>
                  t == Outcome(Done, s1.puts + s2.puts + s3.puts + s4.puts + s5.puts,
                               s1.warned + s2.warned + s3.warned + s4.warned + s5.warned))
  {
    var s1 := StopOf(c, hdfReadings);
    var d1 := Replay(pvs, c.replies, s1.puts);
    var s2 := SampleOf(c, d1, snap.position);
    var s3 := RestoreEnergyOf(c, Replay(d1, c.replies, s2.puts), snap.energy, optics);
    var s4 := CloseOf(c, readingsA, readingsB);
    var s5 := ResetExposureOf(c, snap.exposure);
    var d2 := Replay(d1, c.replies, s2.puts);
    var rr := RestoreAndResetOf(c, d2, snap, optics, readingsA, readingsB);
    assert rr == Then(s3, Then(s4, s5));
    var ra := ReturnAndRestoreOf(c, d1, snap, optics, readingsA, readingsB);
    assert ra == Then(s2, rr);
    assert TeardownOf(c, pvs, snap, optics, hdfReadings, readingsA, readingsB) == Then(s1, ra);
    ThenFive(s1, s2, s3, s4, s5);
  }

  /** Five stages run in turn stop at the first that does not end normally. */
  lemma {:induction false} ThenFive(s1: Outcome, s2: Outcome, s3: Outcome, s4: Outcome, s5: Outcome)
    ensures var t := Then(s1, Then(s2, Then(s3, Then(s4, s5))));
            && (s1.status != Done ==> t == s1)
            && (s1.status == Done && s2.status != Done ==>
                  t == Outcome(s2.status, s1.puts + s2.puts, s1.warned + s2.warned))
            && (s1.status == Done && s2.status == Done && s3.status != Done ==>
                  t == Outcome(s3.status, s1.puts + s2.puts + s3.puts, s1.warned + s2.warned + s3.warned))
            && (s1.status == Done && s2.status == Done && s3.status == Done && s4.status != Done ==>
                  t == Outcome(s4.status, s1.puts + s2.puts + s3.puts + s4.puts,
                               s1.warned + s2.warned + s3.warned + s4.warned))
            && (s1.status == Done && s2.status == Done && s3.status == Done && s4.status == Done ==>
                  t == Outcome(s5.status, s1.puts + s2.puts + s3.puts + s4.puts + s5.puts,
                               s1.warned + s2.warned + s3.warned + s4.warned + s5.warned))
  {
    ThenAssoc(s4, s5, s3);
    ThenAssoc(s3, Then(s4, s5), s2);
    ThenAssoc(s2, Then(s3, Then(s4, s5)), s1);
    AppendAssoc(s1.puts, s2.puts, s3.puts);
    AppendAssoc(s1.puts + s2.puts, s3.puts, s4.puts);
    AppendAssoc(s1.puts, s2.puts, s3.puts + s4.puts);
    AppendAssoc(s2.puts, s3.puts, s4.puts);
    AppendAssoc(s1.warned, s2.warned, s3.warned);
    AppendAssoc(s1.warned + s2.warned, s3.warned, s4.warned);
    AppendAssoc(s1.warned, s2.warned, s3.warned + s4.warned);
    AppendAssoc(s2.warned, s3.warned, s4.warned);
  }

  /**
   * `move_sample` from what its steps did: the writes' puts and set
   * warnings, then, when every coordinate converted, the closing log read
   * on the device `o` the writes left.
   */
  lemma SampleSteps(c: Setup, device: map<string, Value>, p: Position, o: Owner, st: Status,
                    s0: seq<Put>, w0: seq<Warning>, s1: seq<Put>, w1: seq<Warning>, w2: seq<Warning>)
    requires var puts := Sends(SampleWrites(p.x, p.y, p.z, p.theta), c.prefix, c.hasPermit, c.queued);
             s1 == s0 + puts && o == Owner(c.prefix, Replay(device, c.replies, puts))
    requires w1 == w0 + SetWarnings(SampleWrites(p.x, p.y, p.z, p.theta), c.prefix, c.hasPermit, c.replies)
    requires SampleStatus(p.x, p.y, p.z) != Done ==> st == SampleStatus(p.x, p.y, p.z) && w2 == w1
    requires SampleStatus(p.x, p.y, p.z) == Done ==> st == SampleLog(o).status && w2 == w1 + SampleLog(o).warnings
    ensures Ran(SampleOf(c, device, p), st, s0, w0, s1, w2)
  {
    AppendAssoc(w0, SetWarnings(SampleWrites(p.x, p.y, p.z, p.theta), c.prefix, c.hasPermit, c.replies), SampleLog(o).warnings);
  }

  /**
   * `close_shutters` with the permit, from what its steps did: the two
   * shutter steps, then the warning when neither shutter is enabled.
   */
  lemma CloseSteps(c: Setup, readingsA: seq<Value>, readingsB: seq<Value>, st: Status,
                   s0: seq<Put>, w0: seq<Warning>, s1: seq<Put>, w1: seq<Warning>, w2: seq<Warning>)
    requires c.hasPermit
    requires var a := ShutterStepOf(c.useA, ShutterAClose, "ShutterA_Move_Status", ShutterClosed, readingsA, c.prefix, c.hasPermit, c.replies);
             var b := ShutterStepOf(c.useB, ShutterBClose, "ShutterB_Move_Status", ShutterClosed, readingsB, c.prefix, c.hasPermit, c.replies);
             && st == (if a.stuck || b.stuck then StillPolling else Done)
             && s1 == s0 + Sends(if a.stuck then a.writes else a.writes + b.writes, c.prefix, c.hasPermit, c.queued)
             && w1 == w0 + (if a.stuck then a.warned else a.warned + b.warned)
    requires w2 == w1 + (if st == Done && !c.useA && !c.useB then [NeitherShutterEnabled] else [])
    ensures Ran(CloseOf(c, readingsA, readingsB), st, s0, w0, s1, w2)
  {
    var a := ShutterStepOf(c.useA, ShutterAClose, "ShutterA_Move_Status", ShutterClosed, readingsA, c.prefix, c.hasPermit, c.replies);
    var b := ShutterStepOf(c.useB, ShutterBClose, "ShutterB_Move_Status", ShutterClosed, readingsB, c.prefix, c.hasPermit, c.replies);
    AppendAssoc(w0, if a.stuck then a.warned else a.warned + b.warned,
                if st == Done && !c.useA && !c.useB then [NeitherShutterEnabled] else []);
  }

  /**
   * A stage with outcome `a` that took the log from `s0`, `w0` to `s1`,
   * `w1`, followed, when it ended normally, by one with outcome `b` that
   * took it on to `s2`, `w2`: together they did `Then(a, b)`.
   */
  lemma ThenLog(a: Outcome, b: Outcome, st1: Status, st2: Status, s0: seq<Put>, w0: seq<Warning>,
                s1: seq<Put>, w1: seq<Warning>, s2: seq<Put>, w2: seq<Warning>)
    requires Ran(a, st1, s0, w0, s1, w1)
    requires st1 == Done ==> Ran(b, st2, s1, w1, s2, w2)
    requires st1 != Done ==> st2 == st1 && s2 == s1 && w2 == w1
    ensures Ran(Then(a, b), st2, s0, w0, s2, w2)
  {
    AppendAssoc(s0, a.puts, b.puts);
    AppendAssoc(w0, a.warned, b.warned);
  }

  /** Running `b` after `a` after `p`: the logs concatenate when both `p` and `a` end normally. */
  lemma ThenAssoc(a: Outcome, b: Outcome, p: Outcome)
    ensures p.status == Done && a.status == Done ==>
              Then(p, Then(a, b)) == Outcome(b.status, p.puts + a.puts + b.puts, p.warned + a.warned + b.warned)
  {
    AppendAssoc(p.puts, a.puts, b.puts);
    AppendAssoc(p.warned, a.warned, b.warned);
  }

  class NanoTxm {
    /** `ioc_prefix`, always `IocPrefix` for this class. */
    const iocPrefix: string
    const hasPermit: bool
    const useShutterA: bool
    const useShutterB: bool
    /** How the device answers puts, per PV name. */
    const replies: map<string, Reply>
    /** The device as the instrument found it. */
    ghost const initialPvs: map<string, Value>

    var pvs: map<string, Value>
    var sent: seq<Put>
    var warnings: seq<Warning>
    var pvQueue: Option<seq<PvPromise>>
    var shuttersAreOpen: bool
    var fastShutterEnabled: bool
    var triggered: seq<int>

    /** The device holds what the logged puts left in it. */
    ghost predicate Valid()
      reads this`pvs, this`sent
    {
      pvs == Replay(initialPvs, replies, sent)
    }

    /** `NanoTXM(has_permit, use_shutter_A, use_shutter_B)` on a device. */
    constructor(hasPermit: bool, useShutterA: bool, useShutterB: bool, device: map<string, Value>, replies: map<string, Reply>)
      ensures Valid()
      ensures iocPrefix == IocPrefix
      ensures this.hasPermit == hasPermit && this.useShutterA == useShutterA && this.useShutterB == useShutterB
      ensures this.replies == replies && pvs == device && sent == [] && warnings == []
      ensures pvQueue == None && !shuttersAreOpen && !fastShutterEnabled && triggered == []
    {
      iocPrefix := IocPrefix;
      this.hasPermit := hasPermit;
      this.useShutterA := useShutterA;
      this.useShutterB := useShutterB;
      this.replies := replies;
      initialPvs := device;
      pvs := device;
      sent := [];
      warnings := [];
      pvQueue := None;
      shuttersAreOpen := false;
      fastShutterEnabled := false;
      triggered := [];
    }

    /** The instrument as a descriptor sees it. */
    function AsOwner(): Owner
      reads this`pvs
    {
      Owner(iocPrefix, pvs)
    }

    /** Whether a `wait_pvs` scope is active. */
    function Queued(): bool
      reads this`pvQueue
    {
      pvQueue.Some?
    }

    /**
     * `pv_put`. With a queue the put is sent without waiting, every earlier
     * promise for the same PV leaves the queue and a fresh one joins it at
     * the end; without one the caller's `wait` is passed on. A TypeError
     * from `_pv_put` (reply `RaisedTypeError`) escapes before the queue is
     * touched.
     */
    method PvPut(name: string, value: Value, wait: bool) returns (ret: Reply)
      requires Valid()
      modifies this`sent, this`pvs, this`pvQueue
      ensures Valid()
      ensures ret == ReplyTo(replies, name)
      ensures sent == old(sent) + [Put(name, value, old(pvQueue).None? && wait)]
      ensures pvQueue.Some? == old(pvQueue).Some?
      ensures old(pvQueue).Some? && ret == RaisedTypeError ==> pvQueue == old(pvQueue)
      ensures old(pvQueue).Some? && ret != RaisedTypeError ==>
                var q := pvQueue.value;
                && |q| > 0 && q[..|q| - 1] == Without(old(pvQueue).value, name)
                && q[|q| - 1].pvName == name && fresh(q[|q| - 1]) && !q[|q| - 1].isComplete
      ensures old(pvQueue).Some? && OnePerName(old(pvQueue).value) ==> OnePerName(pvQueue.value)
    {
      var put := Put(name, value, pvQueue.None? && wait);
      ret := ReplyTo(replies, name);
      ReplaySnoc(initialPvs, replies, sent, put);
      sent := sent + [put];
      pvs := Store(pvs, replies, put);
      if pvQueue.Some? && ret != RaisedTypeError {
        var promise := new PvPromise(name);
        if OnePerName(pvQueue.value) {
          LastWriteWins(pvQueue.value, name, promise);
        }
        var q := Without(pvQueue.value, name) + [promise];
        assert q[..|q| - 1] == Without(pvQueue.value, name);
        pvQueue := Some(q);
      }
    }

    /**
     * `TxmPV.__set__` of scanlib: without a needed permit nothing is sent
     * and one warning is issued; otherwise `pv_put` is called with the
     * descriptor's `wait`, and a failed put warns when the descriptor waits.
     */
    method SetPv(pv: Descriptor, value: Value)
      requires Valid()
      modifies this`sent, this`pvs, this`pvQueue, this`warnings
      ensures Valid()
      ensures sent == old(sent) + SendOf(Write(pv, value), iocPrefix, hasPermit, old(Queued()))
      ensures warnings == old(warnings) + SetWarningOf(Write(pv, value), iocPrefix, hasPermit, replies)
      ensures Queued() == old(Queued())
      ensures !Permitted(pv, hasPermit) ==> pvQueue == old(pvQueue)
      ensures old(pvQueue).Some? && OnePerName(old(pvQueue).value) ==> OnePerName(pvQueue.value)
    {
      var name := PvName(pv, iocPrefix);
      if Permitted(pv, hasPermit) {
        var reply := PvPut(name, value, pv.wait);
        warnings := warnings + ScanlibSetWarnings(pv, name, reply);
      } else {
        warnings := warnings + [NotSetWithoutPermit(name)];
      }
    }

    /** A run of assignments, in order. */
    method SetAll(ws: seq<Write>)
      requires Valid()
      modifies this`sent, this`pvs, this`pvQueue, this`warnings
      ensures Valid()
      ensures sent == old(sent) + Sends(ws, iocPrefix, hasPermit, old(Queued()))
      ensures warnings == old(warnings) + SetWarnings(ws, iocPrefix, hasPermit, replies)
      ensures Queued() == old(Queued())
    {
      var i := 0;
      while i < |ws|
        invariant 0 <= i <= |ws|
        invariant Valid() && Queued() == old(Queued())
        invariant sent == old(sent) + Sends(ws[..i], iocPrefix, hasPermit, old(Queued()))
        invariant warnings == old(warnings) + SetWarnings(ws[..i], iocPrefix, hasPermit, replies)
      {
        var w := ws[i];
        assert Write(w.pv, w.value) == w;
        ghost var sentBefore, warnedBefore := sent, warnings;
        SetPv(w.pv, w.value);
        assert sent == sentBefore + SendOf(w, iocPrefix, hasPermit, old(Queued()));
        assert warnings == warnedBefore + SetWarningOf(w, iocPrefix, hasPermit, replies);
        TakeSnoc(ws, i);
        SendsStep(old(sent), ws[..i], w, iocPrefix, hasPermit, old(Queued()));
        SetWarningsStep(old(warnings), ws[..i], w, iocPrefix, hasPermit, replies);
        i := i + 1;
      }
      assert ws[..i] == ws;
    }

    /** A read through a descriptor: `TxmPV.__get__`, with its cast warning. */
    method ReadPv(pv: Descriptor) returns (r: Read)
      modifies this`warnings
      ensures r == Get(pv, Some(AsOwner())) && !r.Itself?
      ensures warnings == old(warnings) + CastWarnings(r)
    {
      r := Get(pv, Some(AsOwner()));
      warnings := warnings + CastWarnings(r);
    }

    /** Entering `wait_pvs`: the current queue is saved and an empty one installed. */
    method WaitPvsEnter() returns (saved: Option<seq<PvPromise>>)
      modifies this`pvQueue
      ensures saved == old(pvQueue) && pvQueue == Some([])
    {
      saved := pvQueue;
      pvQueue := Some([]);
    }

    /** The promises of the current queue. */
    ghost function Promises(): set<PvPromise>
      reads this`pvQueue
    {
      if pvQueue.Some? then set p | p in pvQueue.value else {}
    }

    /**
     * Leaving `wait_pvs` normally: when blocking, poll until every queued
     * promise has completed (`fired[t]` names the PVs whose put callbacks
     * arrive in round t), then put the saved queue back. A scope whose body
     * raises never gets here, so its saved queue is not restored.
     */
    method WaitPvsExit(saved: Option<seq<PvPromise>>, block: bool, fired: seq<set<string>>) returns (st: Status)
      modifies this`pvQueue, Promises()
      ensures old(pvQueue).None? ==> st == Raised(TypeError) && pvQueue == old(pvQueue)
      ensures old(pvQueue).Some? ==> st == Done || st == StillPolling
      ensures old(pvQueue).Some? && !block ==> st == Done
      ensures st == Done ==> pvQueue == saved
      ensures st == Done && block ==> AllComplete(old(pvQueue).value)
      ensures st == StillPolling ==> pvQueue == old(pvQueue) && block && !AllComplete(old(pvQueue).value)
      ensures old(pvQueue).Some? ==> forall p :: p in old(pvQueue).value && old(p.isComplete) ==> p.isComplete
    {
      if pvQueue.None? {
        return Raised(TypeError);
      }
      var q := pvQueue.value;
      var t := 0;
      while block && !AllComplete(q)
        invariant 0 <= t <= |fired|
        invariant pvQueue == old(pvQueue) && q == old(pvQueue).value
        invariant forall p :: p in q && old(p.isComplete) ==> p.isComplete
        decreases |fired| - t
      {
        if t == |fired| {
          return StillPolling;
        }
        CompleteNamed(q, fired[t]);
        t := t + 1;
      }
      pvQueue := saved;
      return Done;
    }

    /**
     * `wait_pv(name, target, timeout)` on the successive values the named
     * descriptor reads. A name that is not a PV attribute raises
     * AttributeError; a match returns True; a timeout warns once and
     * returns None, never raising.
     */
    method WaitPv(name: string, target: Value, timeout: real, readings: seq<Value>) returns (st: Status, r: Option<bool>)
      modifies this`warnings
      ensures name !in PvAttributes ==> st == Raised(AttributeError) && r == None && warnings == old(warnings)
      ensures name in PvAttributes ==>
                var p := PollOf(readings, target, timeout);
                && (st == Done && r == Some(true) <==> p.Matched?)
                && (st == Done && r == None <==> p.TimedOut?)
                && (st == StillPolling <==> p.Exhausted?)
                && st != Raised(AttributeError)
                && warnings == old(warnings) + PollWarnings(readings, target, timeout, name)
    {
      if name !in PvAttributes {
        return Raised(AttributeError), None;
      }
      var p := PollUntil(readings, target, timeout);
      match p
      case Matched(_) =>
        st, r := Done, Some(true);
      case TimedOut(_) =>
        warnings := warnings + [PollTimedOut(name)];
        st, r := Done, None;
      case Exhausted =>
        st, r := StillPolling, None;
    }

    /** `sample_position()`. */
    method SamplePosition() returns (r: Result<Position>)
      modifies this`warnings
      ensures r == PositionOf(AsOwner())
      ensures warnings == old(warnings) + PositionWarnings(AsOwner())
    {
      var rx := ReadPv(MotorSampleTopX);
      if rx.ReadRaised? { return Err(rx.error); }
      var ry := ReadPv(MotorSampleY);
      ghost var a, b := CastWarnings(rx), CastWarnings(ry);
      AppendAssoc(old(warnings), a, b);
      if ry.ReadRaised? { return Err(ry.error); }
      var rz := ReadPv(MotorSampleTopZ);
      ghost var c := CastWarnings(rz);
      AppendAssoc(old(warnings), a + b, c);
      AppendAssoc(a, b, c);
      if rz.ReadRaised? { return Err(rz.error); }
      var rt := ReadPv(MotorSampleRot);
      ghost var d := CastWarnings(rt);
      AppendAssoc(old(warnings), a + b + c, d);
      AppendAssoc(a, b + c, d);
      AppendAssoc(b, c, d);
      if rt.ReadRaised? { return Err(rt.error); }
      r := Ok(Position(rx.value, ry.value, rz.value, rt.value));
    }

    /**
     * The debug line `move_sample` ends with: the stage positions read back
     * and formatted to two decimals, or, after a ValueError, read again into a
     * plain message.
     */
    method LogSampleMove() returns (st: Status)
      modifies this`warnings
      ensures st == SampleLog(AsOwner()).status
      ensures warnings == old(warnings) + SampleLog(AsOwner()).warnings
    {
      var p := SamplePosition();
      var failure := if p.Err? then Some(p.error) else LogFormatError(p.value);
      if failure.Some? && failure.value == ValueError {
        ghost var seen := warnings;
        var q := SamplePosition();
        AppendAssoc(old(warnings), seen[|old(warnings)|..], warnings[|seen|..]);
        st := if q.Err? then Raised(q.error) else Done;
      } else {
        st := if failure.Some? then Raised(failure.value) else Done;
      }
    }

    /**
     * `move_sample(x, y, z, theta)`, VNone standing for an argument left
     * out: theta is written as given, then x, y and z through `float`; when
     * every coordinate converted, the stage positions are read back for the
     * closing log line.
     */
    method MoveSample(x: Value, y: Value, z: Value, theta: Value, ghost device: map<string, Value>, ghost queued: bool) returns (st: Status)
      requires Valid() && pvs == device && Queued() == queued
      modifies this`sent, this`pvs, this`pvQueue, this`warnings
      ensures Valid() && Queued() == queued
      ensures Ran(SampleOf(SetupWith(queued), device, Position(x, y, z, theta)), st, old(sent), old(warnings), sent, warnings)
    {
      var ws := SampleWrites(x, y, z, theta);
      SetAll(ws);
      ReplayAppend(initialPvs, replies, old(sent), Sends(ws, iocPrefix, hasPermit, queued));
      ghost var (w1, o) := (warnings, AsOwner());
      st := SampleStatus(x, y, z);
      if st == Done {
        st := LogSampleMove();
      }
      SampleSteps(SetupWith(queued), device, Position(x, y, z, theta), o, st, old(sent), old(warnings), sent, w1, warnings);
    }

    /** `energy()`: the monochromator energy, read through its float descriptor. */
    method Energy() returns (r: Read)
      modifies this`warnings
      ensures r == Get(DcmPutEnergy, Some(AsOwner())) && !r.Itself?
      ensures warnings == old(warnings) + CastWarnings(r)
    {
      r := ReadPv(DcmPutEnergy);
    }

    /**
     * `move_energy(energy, constant_mag, correct_backlash)`, its optics
     * arithmetic given as `optics`.
     */
    method MoveEnergy(energy: Value, constantMag: bool, correctBacklash: bool, optics: Arithmetic) returns (st: Status)
      requires Valid()
      modifies this`sent, this`pvs, this`pvQueue, this`warnings
      ensures Valid() && Queued() == old(Queued())
      ensures var m := PlanEnergyMove(old(AsOwner()), energy, constantMag, correctBacklash, optics);
              && st == m.status
              && sent == old(sent) + Sends(m.writes, iocPrefix, hasPermit, old(Queued()))
              && warnings == old(warnings) + m.warned + SetWarnings(m.writes, iocPrefix, hasPermit, replies)
    {
      if !energy.VNum? {
        return Raised(TypeError);
      }
      if !InEnergyRange(energy.num) {
        return Raised(EnergyError);
      }
      var re := Energy();
      if re.ReadRaised? {
        return Raised(re.error);
      }
      var rc := ReadPv(CcdMotor);
      if rc.ReadRaised? {
        return Raised(rc.error);
      }
      var plan := Optical(re.value, rc.value, energy.num, constantMag, optics);
      ghost var seen := CastWarnings(re) + CastWarnings(rc);
      AppendAssoc(old(warnings), CastWarnings(re), CastWarnings(rc));
      assert warnings == old(warnings) + seen;
      ghost var m := PlanEnergyMove(old(AsOwner()), energy, constantMag, correctBacklash, optics);
      assert re == Get(DcmPutEnergy, Some(old(AsOwner()))) && rc == Get(CcdMotor, Some(old(AsOwner())));
      assert sent == old(sent) && pvs == old(pvs) && Queued() == old(Queued());
      match plan
      case Guarded(err) =>
        if err == ValueError || err == TypeError {
          warnings := warnings + [ArithmeticWarning];
          st := Done;
          AppendAssoc(old(warnings), seen, [ArithmeticWarning]);
          assert m == EnergyMove(Done, seen + [ArithmeticWarning], []);
        } else {
          st := Raised(err);
          assert m == EnergyMove(Raised(err), seen, []);
        }
      case Unguarded(err) =>
        var mode := ReadPv(DcmMvt);
        assert CastWarnings(mode) == [];
        var ws := [Write(DcmMvt, VNum(1.0))];
        assert m == EnergyMove(Raised(err), seen, ws);
        assert warnings == old(warnings) + seen;
        SetAll(ws);
        st := Raised(err);
      case Targets(ccd, zonePlate) =>
        var mode := ReadPv(DcmMvt);
        assert CastWarnings(mode) == [];
        assert mode.value == DeviceGet(old(pvs), PvName(DcmMvt, iocPrefix));
        var ws := EnergyWrites(energy.num, constantMag, correctBacklash, ccd, zonePlate, mode.value);
        assert m == EnergyMove(Done, seen, ws);
        assert warnings == old(warnings) + seen;
        SetAll(ws);
        st := Done;
    }

    /** One enabled shutter: its write, then the wait on its status PV. */
    method StepShutter(pv: Descriptor, statusName: string, target: Value, readings: seq<Value>) returns (stuck: bool)
      requires Valid() && (statusName == "ShutterA_Move_Status" || statusName == "ShutterB_Move_Status")
      modifies this`sent, this`pvs, this`pvQueue, this`warnings
      ensures Valid() && Queued() == old(Queued())
      ensures var step := ShutterStepOf(true, pv, statusName, target, readings, iocPrefix, hasPermit, replies);
              && stuck == step.stuck
              && sent == old(sent) + Sends(step.writes, iocPrefix, hasPermit, old(Queued()))
              && warnings == old(warnings) + step.warned
      ensures IsPrefix(old(sent), sent)
    {
      SetPv(pv, VNum(1.0));
      AppendIsPrefix(old(sent), SendOf(Write(pv, VNum(1.0)), iocPrefix, hasPermit, old(Queued())));
      SendsOne(Write(pv, VNum(1.0)), iocPrefix, hasPermit, old(Queued()));
      assert statusName in PvAttributes;
      var st, _ := WaitPv(statusName, target, DefaultTimeout, readings);
      stuck := st == StillPolling;
      AppendAssoc(old(warnings), SetWarningOf(Write(pv, VNum(1.0)), iocPrefix, hasPermit, replies),
                  PollWarnings(readings, target, DefaultTimeout, statusName));
    }

    /**
     * The shared body of `open_shutters` and `close_shutters` once the
     * permit is known: shutter A's step when enabled, then shutter B's,
     * stopping where a wait ran out of readings.
     */
    method StepShutters(pvA: Descriptor, pvB: Descriptor, target: Value, readingsA: seq<Value>, readingsB: seq<Value>) returns (st: Status)
      requires Valid()
      modifies this`sent, this`pvs, this`pvQueue, this`warnings
      ensures Valid() && Queued() == old(Queued())
      ensures var a := ShutterStepOf(useShutterA, pvA, "ShutterA_Move_Status", target, readingsA, iocPrefix, hasPermit, replies);
              var b := ShutterStepOf(useShutterB, pvB, "ShutterB_Move_Status", target, readingsB, iocPrefix, hasPermit, replies);
              && st == (if a.stuck || b.stuck then StillPolling else Done)
              && sent == old(sent) + Sends(if a.stuck then a.writes else a.writes + b.writes, iocPrefix, hasPermit, old(Queued()))
              && warnings == old(warnings) + (if a.stuck then a.warned else a.warned + b.warned)
      ensures IsPrefix(old(sent), sent)
    {
      ghost var a := ShutterStepOf(useShutterA, pvA, "ShutterA_Move_Status", target, readingsA, iocPrefix, hasPermit, replies);
      ghost var b := ShutterStepOf(useShutterB, pvB, "ShutterB_Move_Status", target, readingsB, iocPrefix, hasPermit, replies);
      assert IsPrefix(old(sent), sent);
      if useShutterA {
        var stuck := StepShutter(pvA, "ShutterA_Move_Status", target, readingsA);
        if stuck {
          return StillPolling;
        }
      } else {
        assert a.writes + b.writes == b.writes && a.warned + b.warned == b.warned;
      }
      ghost var afterA := sent;
      if useShutterB {
        var stuck := StepShutter(pvB, "ShutterB_Move_Status", target, readingsB);
        PrefixTrans(old(sent), afterA, sent);
        SendsAppend(a.writes, b.writes, iocPrefix, hasPermit, old(Queued()));
        AppendAssoc(old(sent), Sends(a.writes, iocPrefix, hasPermit, old(Queued())), Sends(b.writes, iocPrefix, hasPermit, old(Queued())));
        AppendAssoc(old(warnings), a.warned, b.warned);
        if stuck {
          return StillPolling;
        }
      } else {
        assert a.writes + b.writes == a.writes && a.warned + b.warned == a.warned;
      }
      st := Done;
    }

    /**
     * `open_shutters()`: without the permit one warning and nothing else;
     * with it the enabled shutters are opened in turn, the flag becomes
     * "A or B", and having neither enabled warns.
     */
    method OpenShutters(readingsA: seq<Value>, readingsB: seq<Value>) returns (st: Status)
      requires Valid()
      modifies this`sent, this`pvs, this`pvQueue, this`warnings, this`shuttersAreOpen
      ensures Valid() && Queued() == old(Queued())
      ensures !hasPermit ==> st == Done && sent == old(sent) && warnings == old(warnings) + [ShuttersNotOpened]
                              && shuttersAreOpen == old(shuttersAreOpen)
      ensures hasPermit ==>
                var a := ShutterStepOf(useShutterA, ShutterAOpen, "ShutterA_Move_Status", ShutterOpen, readingsA, iocPrefix, hasPermit, replies);
                var b := ShutterStepOf(useShutterB, ShutterBOpen, "ShutterB_Move_Status", ShutterOpen, readingsB, iocPrefix, hasPermit, replies);
                && st == (if a.stuck || b.stuck then StillPolling else Done)
                && sent == old(sent) + Sends(if a.stuck then a.writes else a.writes + b.writes, iocPrefix, hasPermit, old(Queued()))
                && warnings == old(warnings) + (if a.stuck then a.warned else a.warned + b.warned)
                                + (if st == Done && !useShutterA && !useShutterB then [NeitherShutterEnabled] else [])
                && shuttersAreOpen == (if st == Done then useShutterA || useShutterB else old(shuttersAreOpen))
      ensures IsPrefix(old(sent), sent)
    {
      assert IsPrefix(old(sent), sent);
      if !hasPermit {
        warnings := warnings + [ShuttersNotOpened];
        return Done;
      }
      st := StepShutters(ShutterAOpen, ShutterBOpen, ShutterOpen, readingsA, readingsB);
      if st == Done {
        shuttersAreOpen := useShutterA || useShutterB;
        if !useShutterA && !useShutterB {
          warnings := warnings + [NeitherShutterEnabled];
        }
      }
    }

    /**
     * `close_shutters()`: without the permit one warning and nothing else;
     * with it the enabled shutters are closed in turn, the flag becomes
     * False, and having neither enabled warns.
     */
    method CloseShutters(readingsA: seq<Value>, readingsB: seq<Value>, ghost queued: bool) returns (st: Status)
      requires Valid() && Queued() == queued
      modifies this`sent, this`pvs, this`pvQueue, this`warnings, this`shuttersAreOpen
      ensures Valid() && Queued() == queued
      ensures Ran(CloseOf(SetupWith(queued), readingsA, readingsB), st, old(sent), old(warnings), sent, warnings)
      ensures shuttersAreOpen == if st == Done && hasPermit then false else old(shuttersAreOpen)
    {
      if !hasPermit {
        warnings := warnings + [ShuttersNotClosed];
        return Done;
      }
      st := StepShutters(ShutterAClose, ShutterBClose, ShutterClosed, readingsA, readingsB);
      ghost var (s1, w1) := (sent, warnings);
      if st == Done {
        shuttersAreOpen := false;
        if !useShutterA && !useShutterB {
          warnings := warnings + [NeitherShutterEnabled];
        }
      }
      CloseSteps(SetupWith(queued), readingsA, readingsB, st, old(sent), old(warnings), s1, w1, warnings);
    }

    /**
     * `capture_projections`, `capture_white_field` and
     * `capture_dark_field`: the shutter-consistency warning, the frame type
     * written, then `_trigger_projections(n)`, recorded as `n`.
     */
    method Capture(f: Frame, n: int)
      requires Valid()
      modifies this`sent, this`pvs, this`pvQueue, this`warnings, this`triggered
      ensures Valid() && Queued() == old(Queued())
      ensures sent == old(sent) + SendOf(Write(Cam1FrameType, VNum(FrameTypeCode(f))), iocPrefix, hasPermit, old(Queued()))
      ensures warnings == old(warnings) + CaptureWarnings(f, shuttersAreOpen)
                          + SetWarningOf(Write(Cam1FrameType, VNum(FrameTypeCode(f))), iocPrefix, hasPermit, replies)
      ensures triggered == old(triggered) + [n]
    {
      warnings := warnings + CaptureWarnings(f, shuttersAreOpen);
      SetPv(Cam1FrameType, VNum(FrameTypeCode(f)));
      triggered := triggered + [n];
    }

    /** The `exposure_time` getter. */
    method ExposureTime() returns (v: Value)
      modifies this`warnings
      ensures v == ExposureOn(AsOwner()) && warnings == old(warnings)
    {
      var a := ReadPv(Cam1AcquireTime);
      var b := ReadPv(Cam1AcquirePeriod);
      v := ExposureOf(a.value, b.value);
    }

    /**
     * The `exposure_time` setter: the camera's acquire time and period and
     * the fast shutter's exposure, in that order. The log ends with their
     * puts.
     */
    method SetExposureTime(v: Value)
      requires Valid()
      modifies this`sent, this`pvs, this`pvQueue, this`warnings
      ensures Valid() && Queued() == old(Queued())
      ensures sent == old(sent) + Sends(ExposureWrites(v), iocPrefix, hasPermit, old(Queued()))
      ensures warnings == old(warnings) + SetWarnings(ExposureWrites(v), iocPrefix, hasPermit, replies)
      ensures var back := Sends(ExposureWrites(v), iocPrefix, hasPermit, old(Queued()));
              IsPrefix(old(sent), sent) && IsSuffix(back, sent) && |old(sent)| + |back| <= |sent|
    {
      SetAll(ExposureWrites(v));
      PrefixThenSuffix(old(sent), old(sent), Sends(ExposureWrites(v), iocPrefix, hasPermit, old(Queued())));
    }

    /** Entering `run_scan`: the saved sample position, energy, exposure and fast-shutter flag. */
    method RunScanEnter() returns (r: Result<Snapshot>)
      modifies this`warnings
      ensures r == SnapshotOf(AsOwner(), fastShutterEnabled)
      ensures warnings == old(warnings) + PositionWarnings(AsOwner())
                          + (if PositionOf(AsOwner()).Err? then [] else CastWarnings(Get(DcmPutEnergy, Some(AsOwner()))))
    {
      var position := SamplePosition();
      if position.Err? {
        return Err(position.error);
      }
      var e := Energy();
      if e.ReadRaised? {
        return Err(e.error);
      }
      var exposure := ExposureTime();
      r := Ok(Snapshot(position.value, e.value, exposure, fastShutterEnabled));
    }

    /**
     * The first steps of the `run_scan` teardown: the TIFF and HDF captures
     * are stopped, then `wait_pv('HDF1_Capture', 0)`, whose timeout only warns.
     */
    method StopCapture(hdfReadings: seq<Value>, ghost queued: bool) returns (st: Status)
      requires Valid() && Queued() == queued
      modifies this`sent, this`pvs, this`pvQueue, this`warnings
      ensures Valid() && Queued() == queued
      ensures Ran(StopOf(SetupWith(queued), hdfReadings), st, old(sent), old(warnings), sent, warnings)
    {
      SetAll(StopWrites());
      assert "HDF1_Capture" in PvAttributes;
      var hdf, _ := WaitPv("HDF1_Capture", VNum(0.0), DefaultTimeout, hdfReadings);
      st := hdf;
      AppendAssoc(old(warnings), SetWarnings(StopWrites(), iocPrefix, hasPermit, replies),
                  PollWarnings(hdfReadings, VNum(0.0), DefaultTimeout, "HDF1_Capture"));
    }

    /** The configuration the teardown stages see, inside a `wait_pvs` scope or not. */
    function SetupWith(queued: bool): Setup {
      Setup(iocPrefix, hasPermit, queued, replies, useShutterA, useShutterB)
    }

    /**
     * The energy step of the `run_scan` teardown: when the monochromator no
     * longer reads the saved energy, `move_energy(init_E)` with its default
     * constant magnification and backlash correction, an EnergyError from it
     * being swallowed.
     */
    method RestoreEnergy(saved: Value, optics: Arithmetic, ghost device: map<string, Value>, ghost queued: bool) returns (st: Status)
      requires Valid() && pvs == device && Queued() == queued
      modifies this`sent, this`pvs, this`pvQueue, this`warnings
      ensures Valid() && Queued() == queued
      ensures Ran(RestoreEnergyOf(SetupWith(queued), device, saved, optics), st, old(sent), old(warnings), sent, warnings)
    {
      var now := Energy();
      if now.ReadRaised? {
        return Raised(now.error);
      }
      if now.value != saved {
        ghost var m := PlanEnergyMove(AsOwner(), saved, true, true, optics);
        ghost var setWarned := SetWarnings(m.writes, iocPrefix, hasPermit, replies);
        ghost var w := warnings;
        var moved := MoveEnergy(saved, true, true, optics);
        AppendAssoc(w, m.warned, setWarned);
        AppendAssoc(old(warnings), CastWarnings(now), m.warned + setWarned);
        AppendAssoc(CastWarnings(now), m.warned, setWarned);
        st := if moved == Raised(EnergyError) then Done else moved;
      } else {
        st := Done;
      }
    }

    /**
     * The teardown of `run_scan`'s `finally` block after the fast-shutter
     * flag is restored, in order: captures stopped, sample moved back,
     * energy restored (an EnergyError swallowed), shutters closed and the
     * exposure time reset. Any other failure ends it. `device` and
     * `queued` name the device state and the `wait_pvs` scope it starts in.
     */
    method Teardown(snap: Snapshot, optics: Arithmetic, hdfReadings: seq<Value>, readingsA: seq<Value>, readingsB: seq<Value>,
                    ghost device: map<string, Value>, ghost queued: bool) returns (teardown: Status)
      requires Valid() && pvs == device && Queued() == queued
      modifies this`sent, this`pvs, this`pvQueue, this`warnings, this`shuttersAreOpen
      ensures Valid() && Queued() == queued
      ensures Ran(TeardownOf(SetupWith(queued), device, snap, optics, hdfReadings, readingsA, readingsB), teardown, old(sent), old(warnings), sent, warnings)
      ensures shuttersAreOpen == if teardown == Done && hasPermit then false else old(shuttersAreOpen)
    {
      ghost var c := SetupWith(queued);
      ghost var s := StopOf(c, hdfReadings);
      var st := StopCapture(hdfReadings, queued);
      assert shuttersAreOpen == old(shuttersAreOpen);
      ReplayAppend(initialPvs, replies, old(sent), s.puts);
      ghost var d1 := Replay(device, c.replies, s.puts);
      ghost var (s1, w1) := (sent, warnings);
      teardown := st;
      if st == Done {
        teardown := ReturnAndRestore(snap, optics, readingsA, readingsB, d1, queued);
      }
      ThenLog(s, ReturnAndRestoreOf(c, d1, snap, optics, readingsA, readingsB), st, teardown, old(sent), old(warnings), s1, w1, sent, warnings);
    }

    /**
     * The teardown after the captures are stopped: the sample moved back to
     * its saved position, then the energy, shutters and exposure time put
     * back, a failure of the move ending it.
     */
    method ReturnAndRestore(snap: Snapshot, optics: Arithmetic, readingsA: seq<Value>, readingsB: seq<Value>,
                            ghost device: map<string, Value>, ghost queued: bool) returns (teardown: Status)
      requires Valid() && pvs == device && Queued() == queued
      modifies this`sent, this`pvs, this`pvQueue, this`warnings, this`shuttersAreOpen
      ensures Valid() && Queued() == queued
      ensures Ran(ReturnAndRestoreOf(SetupWith(queued), device, snap, optics, readingsA, readingsB), teardown, old(sent), old(warnings), sent, warnings)
      ensures shuttersAreOpen == if teardown == Done && hasPermit then false else old(shuttersAreOpen)
    {
      ghost var c := SetupWith(queued);
      var p := snap.position;
      assert p == Position(p.x, p.y, p.z, p.theta);
      ghost var s := SampleOf(c, device, p);
      var st := MoveSample(p.x, p.y, p.z, p.theta, device, queued);
      assert shuttersAreOpen == old(shuttersAreOpen);
      ReplayAppend(initialPvs, replies, old(sent), s.puts);
      ghost var d1 := Replay(device, c.replies, s.puts);
      ghost var (s1, w1) := (sent, warnings);
      teardown := st;
      if st == Done {
        teardown := RestoreAndReset(snap, optics, readingsA, readingsB, d1, queued);
      }
      ThenLog(s, RestoreAndResetOf(c, d1, snap, optics, readingsA, readingsB), st, teardown, old(sent), old(warnings), s1, w1, sent, warnings);
    }

    /**
     * The rest of the teardown once the sample is back: energy restored
     * (an EnergyError swallowed), shutters closed and the exposure time
     * reset, the three exposure writes coming last.
     */
    method RestoreAndReset(snap: Snapshot, optics: Arithmetic, readingsA: seq<Value>, readingsB: seq<Value>,
                           ghost device: map<string, Value>, ghost queued: bool) returns (teardown: Status)
      requires Valid() && pvs == device && Queued() == queued
      modifies this`sent, this`pvs, this`pvQueue, this`warnings, this`shuttersAreOpen
      ensures Valid() && Queued() == queued
      ensures Ran(RestoreAndResetOf(SetupWith(queued), device, snap, optics, readingsA, readingsB), teardown, old(sent), old(warnings), sent, warnings)
      ensures shuttersAreOpen == if teardown == Done && hasPermit then false else old(shuttersAreOpen)
    {
      ghost var c := SetupWith(queued);
      var st := RestoreEnergy(snap.energy, optics, device, queued);
      assert shuttersAreOpen == old(shuttersAreOpen);
      ghost var (s1, w1) := (sent, warnings);
      teardown := st;
      if st == Done {
        teardown := CloseAndReset(snap.exposure, readingsA, readingsB, queued);
      }
      ThenLog(RestoreEnergyOf(c, device, snap.energy, optics), CloseAndResetOf(c, snap.exposure, readingsA, readingsB),
              st, teardown, old(sent), old(warnings), s1, w1, sent, warnings);
    }

    /** The last two teardown steps: `close_shutters()`, then the saved exposure time set back. */
    method CloseAndReset(exposure: Value, readingsA: seq<Value>, readingsB: seq<Value>, ghost queued: bool) returns (st: Status)
      requires Valid() && Queued() == queued
      modifies this`sent, this`pvs, this`pvQueue, this`warnings, this`shuttersAreOpen
      ensures Valid() && Queued() == queued
      ensures Ran(CloseAndResetOf(SetupWith(queued), exposure, readingsA, readingsB), st, old(sent), old(warnings), sent, warnings)
      ensures shuttersAreOpen == if st == Done && hasPermit then false else old(shuttersAreOpen)
    {
      ghost var c := SetupWith(queued);
      st := CloseShutters(readingsA, readingsB, queued);
      ghost var (s1, w1, open) := (sent, warnings, shuttersAreOpen);
      if st == Done {
        SetExposureTime(exposure);
        assert Ran(ResetExposureOf(c, exposure), Done, s1, w1, sent, warnings);
      }
      assert shuttersAreOpen == open;
      ThenLog(CloseOf(c, readingsA, readingsB), ResetExposureOf(c, exposure), st, st, old(sent), old(warnings), s1, w1, sent, warnings);
    }

    /**
     * Leaving `run_scan` after a body that ended with `body`: the fast
     * shutter flag is put back, then the teardown runs. The result is the
     * teardown's failure if it failed, otherwise the body's own outcome,
     * re-raised.
     */
    method RunScanExit(snap: Snapshot, body: Status, optics: Arithmetic, hdfReadings: seq<Value>,
                       readingsA: seq<Value>, readingsB: seq<Value>) returns (st: Status, teardown: Status)
      requires Valid()
      modifies this`sent, this`pvs, this`pvQueue, this`warnings, this`shuttersAreOpen, this`fastShutterEnabled
      ensures Valid() && Queued() == old(Queued())
      ensures st == (if teardown == Done then body else teardown)
      ensures Ran(TeardownOf(SetupWith(old(Queued())), old(pvs), snap, optics, hdfReadings, readingsA, readingsB), teardown, old(sent), old(warnings), sent, warnings)
      ensures shuttersAreOpen == if teardown == Done && hasPermit then false else old(shuttersAreOpen)
      ensures fastShutterEnabled == snap.fastShutter
    {
      fastShutterEnabled := snap.fastShutter;
      assert shuttersAreOpen == old(shuttersAreOpen);
      teardown := Teardown(snap, optics, hdfReadings, readingsA, readingsB, old(pvs), old(Queued()));
      st := if teardown == Done then body else teardown;
    }
  }
}
