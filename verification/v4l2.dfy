/** The slice of the Video4Linux2 (V4L2) sub-device interface that the GC0308
    driver reads and writes: fixed-width integers, the ioctl argument structures
    it touches, and the constants from the V4L2 and errno headers. */
module V4l2 {

  newtype u8 = x: int | 0 <= x < 0x100
  newtype u32 = x: int | 0 <= x < 0x1_0000_0000

  /** Reinterprets a C `int` as `unsigned int`, as the usual arithmetic
      conversions do when the two are compared. */
  function ToU32(x: int): (r: u32)
    ensures 0 <= x < 0x1_0000_0000 ==> r as int == x
    ensures -0x1_0000_0000 <= x < 0 ==> r as int == x + 0x1_0000_0000
  {
    (x % 0x1_0000_0000) as u32
  }

  /** Bitwise or of two flag words. */
  function BitOr(a: u32, b: u32): u32 {
    ((a as bv32) | (b as bv32)) as u32
  }

  const EINVAL: int := 22

  // enum v4l2_buf_type
  const BUF_TYPE_VIDEO_CAPTURE: u32 := 1

  // enum v4l2_field
  const FIELD_NONE: u32 := 1

  // enum v4l2_colorspace
  const COLORSPACE_JPEG: u32 := 7

  // enum v4l2_mbus_pixelcode
  const MBUS_FMT_YUYV8_2X8: u32 := 0x2008

  // v4l2_fourcc('Y', 'U', 'Y', 'V')
  const PIX_FMT_YUYV: u32 := 0x5659_5559

  // v4l2_captureparm.capability and .capturemode flags
  const MODE_HIGHQUALITY: u32 := 0x0001
  const CAP_TIMEPERFRAME: u32 := 0x1000

  // enum v4l2_frmsizetypes, enum v4l2_frmivaltypes
  const FRMSIZE_TYPE_DISCRETE: u32 := 1
  const FRMIVAL_TYPE_DISCRETE: u32 := 1

  /** struct v4l2_fract: a frame interval is numerator/denominator seconds. */
  datatype Fract = Fract(numerator: u32, denominator: u32)

  /** struct v4l2_captureparm */
  datatype CaptureParm = CaptureParm(
    capability: u32,
    capturemode: u32,
    timeperframe: Fract,
    extendedmode: u32,
    readbuffers: u32)

  const ZeroCaptureParm := CaptureParm(0, 0, Fract(0, 0), 0, 0)

  /** struct v4l2_streamparm, with the `capture` member of its parameter union. */
  datatype StreamParm = StreamParm(bufType: u32, capture: CaptureParm)

  /** struct v4l2_pix_format, restricted to the fields the driver uses. */
  datatype PixFormat = PixFormat(width: u32, height: u32, pixelformat: u32)

  /** struct v4l2_mbus_framefmt */
  datatype MbusFrameFmt = MbusFrameFmt(
    width: u32,
    height: u32,
    code: u32,
    field: u32,
    colorspace: u32)

  /** struct v4l2_frmsizeenum, with its `discrete` size. */
  datatype FrmSizeEnum = FrmSizeEnum(
    index: u32,
    pixelFormat: u32,
    sizeType: u32,
    width: u32,
    height: u32)

  /** struct v4l2_frmivalenum, with its `discrete` interval. */
  datatype FrmIvalEnum = FrmIvalEnum(
    index: u32,
    pixelFormat: u32,
    width: u32,
    height: u32,
    ivalType: u32,
    discrete: Fract)
}
