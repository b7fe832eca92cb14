/**
 * Frame tagging shared by the `capture_*` methods of both TXM classes
 * (aps_32id/txm.py and tomo/32id/txm.py): the `Cam1_FrameType` code each
 * writes and the shutter-consistency warning each issues first.
 */
module Frames {
  import opened Common

  /** The frame kinds the capture methods tag frames with. */
  datatype Frame = Projection | WhiteField | DarkField

  /** `FRAME_DATA`, `FRAME_WHITE` and `FRAME_DARK`. */
  function FrameTypeCode(f: Frame): real {
    match f
    case Projection => 0.0
    case WhiteField => 2.0
    case DarkField => 1.0
  }

  /** The shutter-consistency warning of a capture method. */
  function CaptureWarnings(f: Frame, shuttersAreOpen: bool): (w: seq<Warning>)
    ensures |w| <= 1
    ensures w != [] <==> (if f == DarkField then shuttersAreOpen else !shuttersAreOpen)
  {
    match f
    case Projection => if shuttersAreOpen then [] else [ProjectionsWithShuttersClosed]
    case WhiteField => if shuttersAreOpen then [] else [WhiteFieldWithShuttersClosed]
    case DarkField => if shuttersAreOpen then [DarkFieldWithShuttersOpen] else []
  }
}
