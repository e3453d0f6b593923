/** The GC0308 V4L2 sensor driver: the sensor's state record `gc0308_data`,
    the parameter negotiation done by its sub-device callbacks, and the replay of
    its register table over I2C. The I2C adapter is an oracle (`I2cClient`) that
    records every frame handed to it and answers each transfer with a result
    fixed in advance. */
module Gc0308 {
  import opened V4l2

  datatype Option<T> = None | Some(value: T)

  const MIN_FPS: u32 := 15
  const MAX_FPS: u32 := 30
  const DEFAULT_FPS: u32 := 30

  const XCLK_MIN: u32 := 6000000
  const XCLK_MAX: u32 := 24000000

  const VGA_WIDTH: u32 := 640
  const VGA_HEIGHT: u32 := 480

  /** gc0308_mode_MAX: the largest mode index the enumeration callbacks accept. */
  const MODE_MAX: u32 := 1

  /** gc0308_framerates, indexed by enum gc0308_frame_rate (15 fps, then 30 fps). */
  const FrameRates: seq<u32> := [15, 30]

  /** struct gc0308_datafmt */
  datatype DataFmt = DataFmt(code: u32, colorspace: u32)

  /** struct reg_value: one register write. */
  datatype RegValue = RegValue(regAddr: u8, val: u8)

  /** struct gc0308_mode_info; `initData` is None for a NULL `init_data_ptr`. */
  datatype ModeInfo = ModeInfo(
    mode: nat,
    width: u32,
    height: u32,
    initData: Option<seq<RegValue>>,
    initDataSize: nat)

  /** gc0308_colour_fmts: the one media-bus format the sensor produces. */
  const ColourFmts: seq<DataFmt> := [DataFmt(MBUS_FMT_YUYV8_2X8, COLORSPACE_JPEG)]

  /** gc0308_default_setting: vendor tuning values, replayed verbatim. */
  const DefaultSetting: seq<RegValue> := [
    RegValue(0xfe, 0x00), RegValue(0x0f, 0x05), RegValue(0x01, 0xe1), RegValue(0x02, 0x70),
    RegValue(0xe2, 0x00), RegValue(0xe3, 0x96), RegValue(0xe4, 0x02), RegValue(0xe5, 0x58),
    RegValue(0xe6, 0x02), RegValue(0xe7, 0x58), RegValue(0xe8, 0x02), RegValue(0xe9, 0x58),
    RegValue(0xea, 0x0e), RegValue(0xeb, 0xa6), RegValue(0xfe, 0x00), RegValue(0xec, 0x20),
    RegValue(0x05, 0x00), RegValue(0x06, 0x00), RegValue(0x07, 0x00), RegValue(0x08, 0x00),
    RegValue(0x09, 0x01), RegValue(0x0a, 0xe8), RegValue(0x0b, 0x02), RegValue(0x0c, 0x88),
    RegValue(0x0d, 0x02), RegValue(0x0e, 0x02), RegValue(0x10, 0x26), RegValue(0x11, 0x0d),
    RegValue(0x12, 0x2a), RegValue(0x13, 0x00), RegValue(0x14, 0x11), RegValue(0x15, 0x0a),
    RegValue(0x16, 0x05), RegValue(0x17, 0x01), RegValue(0x18, 0x44), RegValue(0x19, 0x44),
    RegValue(0x1a, 0x2a), RegValue(0x1b, 0x00), RegValue(0x1c, 0x49), RegValue(0x1d, 0x9a),
    RegValue(0x1e, 0x61), RegValue(0x1f, 0x00), RegValue(0x20, 0x7f), RegValue(0x21, 0xfa),
    RegValue(0x22, 0x57), RegValue(0x24, 0xa2), RegValue(0x25, 0x0f), RegValue(0x26, 0x03),
    RegValue(0x28, 0x00), RegValue(0x2d, 0x0a), RegValue(0x2f, 0x01), RegValue(0x30, 0xf7),
    RegValue(0x31, 0x50), RegValue(0x32, 0x00), RegValue(0x33, 0x28), RegValue(0x34, 0x2a),
    RegValue(0x35, 0x28), RegValue(0x39, 0x04), RegValue(0x3a, 0x20), RegValue(0x3b, 0x20),
    RegValue(0x3c, 0x00), RegValue(0x3d, 0x00), RegValue(0x3e, 0x00), RegValue(0x3f, 0x00),
    RegValue(0x50, 0x14), RegValue(0x52, 0x41), RegValue(0x53, 0x80), RegValue(0x54, 0x80),
    RegValue(0x55, 0x80), RegValue(0x56, 0x80), RegValue(0x8b, 0x20), RegValue(0x8c, 0x20),
    RegValue(0x8d, 0x20), RegValue(0x8e, 0x14), RegValue(0x8f, 0x10), RegValue(0x90, 0x14),
    RegValue(0x91, 0x3c), RegValue(0x92, 0x50), RegValue(0x5d, 0x12), RegValue(0x5e, 0x1a),
    RegValue(0x5f, 0x24), RegValue(0x60, 0x07), RegValue(0x61, 0x15), RegValue(0x62, 0x08),
    RegValue(0x64, 0x03), RegValue(0x66, 0xe8), RegValue(0x67, 0x86), RegValue(0x68, 0x82),
    RegValue(0x69, 0x18), RegValue(0x6a, 0x0f), RegValue(0x6b, 0x00), RegValue(0x6c, 0x5f),
    RegValue(0x6d, 0x8f), RegValue(0x6e, 0x55), RegValue(0x6f, 0x38), RegValue(0x70, 0x15),
    RegValue(0x71, 0x33), RegValue(0x72, 0xdc), RegValue(0x73, 0x00), RegValue(0x74, 0x02),
    RegValue(0x75, 0x3f), RegValue(0x76, 0x02), RegValue(0x77, 0x38), RegValue(0x78, 0x88),
    RegValue(0x79, 0x81), RegValue(0x7a, 0x81), RegValue(0x7b, 0x22), RegValue(0x7c, 0xff),
    RegValue(0x93, 0x48), RegValue(0x94, 0x02), RegValue(0x95, 0x07), RegValue(0x96, 0xe0),
    RegValue(0x97, 0x40), RegValue(0x98, 0xf0), RegValue(0xb1, 0x40), RegValue(0xb2, 0x40),
    RegValue(0xb3, 0x40), RegValue(0xb6, 0xe0), RegValue(0xbd, 0x38), RegValue(0xbe, 0x36),
    RegValue(0xd0, 0xcb), RegValue(0xd1, 0x10), RegValue(0xd2, 0x90), RegValue(0xd3, 0x48),
    RegValue(0xd5, 0xf2), RegValue(0xd6, 0x16), RegValue(0xdb, 0x92), RegValue(0xdc, 0xa5),
    RegValue(0xdf, 0x23), RegValue(0xd9, 0x00), RegValue(0xda, 0x00), RegValue(0xe0, 0x09),
    RegValue(0xed, 0x04), RegValue(0xee, 0xa0), RegValue(0xef, 0x40), RegValue(0x80, 0x03),
    RegValue(0x9f, 0x10), RegValue(0xa0, 0x20), RegValue(0xa1, 0x38), RegValue(0xa2, 0x4e),
    RegValue(0xa3, 0x63), RegValue(0xa4, 0x76), RegValue(0xa5, 0x87), RegValue(0xa6, 0xa2),
    RegValue(0xa7, 0xb8), RegValue(0xa8, 0xca), RegValue(0xa9, 0xd8), RegValue(0xaa, 0xe3),
    RegValue(0xab, 0xeb), RegValue(0xac, 0xf0), RegValue(0xad, 0xf8), RegValue(0xae, 0xfd),
    RegValue(0xaf, 0xff), RegValue(0xc0, 0x00), RegValue(0xc1, 0x10), RegValue(0xc2, 0x1c),
    RegValue(0xc3, 0x30), RegValue(0xc4, 0x43), RegValue(0xc5, 0x54), RegValue(0xc6, 0x65),
    RegValue(0xc7, 0x75), RegValue(0xc8, 0x93), RegValue(0xc9, 0xb0), RegValue(0xca, 0xcb),
    RegValue(0xcb, 0xe6), RegValue(0xcc, 0xff), RegValue(0xf0, 0x02), RegValue(0xf1, 0x01),
    RegValue(0xf2, 0x02), RegValue(0xf3, 0x30), RegValue(0xf7, 0x12), RegValue(0xf8, 0x0a),
    RegValue(0xf9, 0x9f), RegValue(0xfa, 0x78), RegValue(0xfe, 0x01), RegValue(0x00, 0xf5),
    RegValue(0x02, 0x20), RegValue(0x04, 0x10), RegValue(0x05, 0x08), RegValue(0x06, 0x20),
    RegValue(0x08, 0x0a), RegValue(0x0a, 0xa0), RegValue(0x0b, 0x60), RegValue(0x0c, 0x08),
    RegValue(0x0e, 0x44), RegValue(0x0f, 0x32), RegValue(0x10, 0x41), RegValue(0x11, 0x37),
    RegValue(0x12, 0x22), RegValue(0x13, 0x19), RegValue(0x14, 0x44), RegValue(0x15, 0x44),
    RegValue(0x16, 0xc2), RegValue(0x17, 0xa8), RegValue(0x18, 0x18), RegValue(0x19, 0x50),
    RegValue(0x1a, 0xd8), RegValue(0x1b, 0xf5), RegValue(0x70, 0x40), RegValue(0x71, 0x58),
    RegValue(0x72, 0x30), RegValue(0x73, 0x48), RegValue(0x74, 0x20), RegValue(0x75, 0x60),
    RegValue(0x77, 0x20), RegValue(0x78, 0x32), RegValue(0x30, 0x03), RegValue(0x31, 0x40),
    RegValue(0x32, 0x10), RegValue(0x33, 0xe0), RegValue(0x34, 0xe0), RegValue(0x35, 0x00),
    RegValue(0x36, 0x80), RegValue(0x37, 0x00), RegValue(0x38, 0x04), RegValue(0x39, 0x09),
    RegValue(0x3a, 0x12), RegValue(0x3b, 0x1c), RegValue(0x3c, 0x28), RegValue(0x3d, 0x31),
    RegValue(0x3e, 0x44), RegValue(0x3f, 0x57), RegValue(0x40, 0x6c), RegValue(0x41, 0x81),
    RegValue(0x42, 0x94), RegValue(0x43, 0xa7), RegValue(0x44, 0xb8), RegValue(0x45, 0xd6),
    RegValue(0x46, 0xee), RegValue(0x47, 0x0d), RegValue(0x62, 0xf7), RegValue(0x63, 0x68),
    RegValue(0x64, 0xd3), RegValue(0x65, 0xd3), RegValue(0x66, 0x60), RegValue(0xfe, 0x00)
  ]

  const VgaMode := ModeInfo(0, VGA_WIDTH, VGA_HEIGHT, Some(DefaultSetting), |DefaultSetting|)

  /** The zero-initialised entry that fills each row past its one initialiser. */
  const UnsetMode := ModeInfo(0, 0, 0, None, 0)

  /** gc0308_mode_info_data[frame rate][mode]: only entry [i][0] is initialised. */
  const ModeInfoData: seq<seq<ModeInfo>> := [[VgaMode, UnsetMode], [VgaMode, UnsetMode]]

  /** Number of mode columns in each row of ModeInfoData (gc0308_mode_MAX + 1). */
  const MODE_COLUMNS: nat := 2

  // ---------------------------------------------------------------------------
  // Frame-rate and clock arithmetic

  /** The integer frame rate `denominator / numerator` of a frame interval. */
  function Fps(t: Fract): u32
    requires t.numerator != 0
  {
    t.denominator / t.numerator
  }

  /** The two rates the sensor can be programmed for. */
  predicate IsSupportedFps(fps: u32) {
    fps == 15 || fps == 30
  }

  /** The frame interval gc0308_s_parm settles on for a requested one: a zero
      numerator or denominator means 1/30; a rate above 30 fps becomes 1/30 and
      a rate below 15 fps becomes 1/15; a rate in [15, 30] is kept as given. */
  function NegotiateInterval(t: Fract): (r: Fract)
    ensures r.numerator != 0 && MIN_FPS <= Fps(r) <= MAX_FPS
    ensures t.numerator == 0 || t.denominator == 0 ==> r == Fract(1, DEFAULT_FPS)
    ensures t.numerator != 0 && t.denominator != 0 && MIN_FPS <= Fps(t) <= MAX_FPS ==> r == t
    ensures t.numerator != 0 && t.denominator != 0 && Fps(t) > MAX_FPS ==> r == Fract(1, MAX_FPS)
    ensures t.numerator != 0 && t.denominator != 0 && Fps(t) < MIN_FPS ==> r == Fract(1, MIN_FPS)
  {
    var d := if t.numerator == 0 || t.denominator == 0 then Fract(1, DEFAULT_FPS) else t;
    var fps := d.denominator / d.numerator;
    if fps > MAX_FPS then Fract(1, MAX_FPS)
    else if fps < MIN_FPS then Fract(1, MIN_FPS)
    else d
  }

  /** Negotiating an already negotiated interval changes nothing. */
  lemma NegotiateIntervalIdempotent(t: Fract)
    ensures NegotiateInterval(NegotiateInterval(t)) == NegotiateInterval(t)
  {
  }

  /** gc0308_s_parm stores a request exactly when the negotiated rate is 15 or
      30: when the request had a zero field, was out of [15, 30], or was 15 or
      30 fps already. A request of 16 to 29 fps is not stored. */
  lemma NegotiatedRateStoredIff(t: Fract)
    ensures IsSupportedFps(Fps(NegotiateInterval(t))) <==>
      (t.numerator == 0 || t.denominator == 0 || !(MIN_FPS < Fps(t) < MAX_FPS))
  {
  }

  function Min(a: u32, b: u32): u32 { if a < b then a else b }
  function Max(a: u32, b: u32): u32 { if a < b then b else a }

  /** The master clock gc0308_set_clk_rate programs for a requested one. */
  function ClampXclk(x: u32): (r: u32)
    ensures XCLK_MIN <= r <= XCLK_MAX
    ensures XCLK_MIN <= x <= XCLK_MAX ==> r == x
    ensures x < XCLK_MIN ==> r == XCLK_MIN
    ensures x > XCLK_MAX ==> r == XCLK_MAX
  {
    Max(Min(x, XCLK_MAX), XCLK_MIN)
  }

  /** Clamping the clock twice is the same as clamping it once. */
  lemma ClampXclkIdempotent(x: u32)
    ensures ClampXclk(ClampXclk(x)) == ClampXclk(x)
  {
  }

  // ---------------------------------------------------------------------------
  // Register-table replay

  /** The two bytes gc0308_write_reg puts on the bus for one table entry. */
  function Frame(e: RegValue): seq<u8> {
    [e.regAddr, e.val]
  }

  /** The frames of a whole table, in table order. */
  function Frames(table: seq<RegValue>): (fs: seq<seq<u8>>)
    ensures |fs| == |table|
  {
    seq(|table|, k requires 0 <= k < |table| => Frame(table[k]))
  }

  /** The first transfer number in [from, to) that the bus rejects (a negative
      result), or `to` when it accepts them all. */
  function FirstRejected(reply: nat -> int, from: nat, to: nat): (k: nat)
    requires from <= to
    ensures from <= k <= to
    ensures forall j :: from <= j < k ==> reply(j) >= 0
    ensures k < to ==> reply(k) < 0
    decreases (to as int) - (from as int)
  {
    if from == to then to
    else if reply(from) < 0 then from
    else FirstRejected(reply, from + 1, to)
  }

  /** The outcome of replaying `table` from a bus that had already been sent
      `before`: the writes stop after the first rejected one, and the result is
      -1 if one was rejected and 0 if none was. */
  predicate Replayed(table: seq<RegValue>, reply: nat -> int,
                     before: seq<seq<u8>>, after: seq<seq<u8>>, ret: int)
  {
    var base := |before|;
    var k := FirstRejected(reply, base, base + |table|);
    var n := if k < base + |table| then k - base + 1 else |table|;
    && ret == (if k < base + |table| then -1 else 0)
    && after == before + Frames(table)[..n]
  }

  /** What a replay means for its caller: it returns 0 exactly when every write
      was accepted, and then the whole table went out; otherwise it returns -1,
      what went out is a non-empty prefix of the table, its last frame is the
      one the bus rejected and every earlier one was accepted. */
  lemma ReplayOutcome(table: seq<RegValue>, reply: nat -> int,
                      before: seq<seq<u8>>, after: seq<seq<u8>>, ret: int)
    requires Replayed(table, reply, before, after, ret)
    ensures ret == 0 || ret == -1
    ensures ret == 0 <==> forall j :: |before| <= j < |before| + |table| ==> reply(j) >= 0
    ensures |before| <= |after| <= |before| + |table|
    ensures after[..|before|] == before
    ensures after[|before|..] == Frames(table)[..|after| - |before|]
    ensures ret == 0 ==> after == before + Frames(table)
    ensures ret == -1 ==> |before| < |after| && reply(|after| - 1) < 0
    ensures forall j :: |before| <= j < |after| - 1 ==> reply(j) >= 0
  {
  }

  // ---------------------------------------------------------------------------
  // The I2C bus

  /** An I2C client seen from the driver: the frames it was asked to send and
      the value `i2c_master_send` returns for each transfer. */
  class I2cClient {
    /** The result of the k-th transfer on this client (negative: failure). */
    const reply: nat -> int
    /** Every buffer handed to `i2c_master_send`, in order. */
    var sent: seq<seq<u8>>

    constructor (reply: nat -> int)
      ensures this.reply == reply && sent == []
    {
      this.reply := reply;
      sent := [];
    }

    /** `i2c_master_send`: logs the buffer and answers with the oracle's result. */
    method MasterSend(buf: seq<u8>) returns (r: int)
      modifies this
      ensures sent == old(sent) + [buf]
      ensures r == reply(|old(sent)|)
    {
      r := reply(|sent|);
      sent := sent + [buf];
    }
  }

  // ---------------------------------------------------------------------------
  // Media-bus formats

  /** A media-bus code that gc0308_colour_fmts lists. */
  predicate KnownCode(code: u32) {
    exists k :: 0 <= k < |ColourFmts| && ColourFmts[k].code == code
  }

  /** gc0308_find_datafmt: the position of the first format with `code`, or
      None (a NULL pointer) when no format has it. */
  method FindDataFmt(code: u32) returns (r: Option<nat>)
    ensures r.Some? ==> r.value < |ColourFmts| && ColourFmts[r.value].code == code
    ensures r.None? <==> !KnownCode(code)
  {
    var i := 0;
    while i < |ColourFmts|
      invariant 0 <= i <= |ColourFmts|
      invariant forall k :: 0 <= k < i ==> ColourFmts[k].code != code
    {
      if ColourFmts[i].code == code {
        return Some(i);
      }
      i := i + 1;
    }
    return None;
  }

  /** gc0308_try_fmt: always succeeds; an unknown code is replaced by the
      sensor's own format, a known one is kept with its colour space, and the
      field order is forced to progressive. The result is a known format with no
      interlacing, which try_fmt keeps as it is. */
  method TryFmt(mf: MbusFrameFmt) returns (ret: int, r: MbusFrameFmt)
    ensures ret == 0
    ensures r.field == FIELD_NONE && r.width == mf.width && r.height == mf.height
    ensures KnownCode(mf.code) ==> r.code == mf.code && r.colorspace == mf.colorspace
    ensures !KnownCode(mf.code) ==> r.code == ColourFmts[0].code && r.colorspace == ColourFmts[0].colorspace
    ensures KnownCode(r.code)
  {
    var fmt := FindDataFmt(mf.code);
    r := mf;
    if fmt.None? {
      r := r.(code := ColourFmts[0].code, colorspace := ColourFmts[0].colorspace);
    }
    r := r.(field := FIELD_NONE);
    ret := 0;
  }

  /** gc0308_enum_fmt: index 0 names the sensor's one format; every other index
      is refused and leaves `*code` alone. */
  function EnumFmt(index: u32, code: u32): (r: (int, u32))
    ensures r.0 == 0 <==> index == 0
    ensures r.0 != 0 ==> r.0 == -EINVAL && r.1 == code
    ensures r.0 == 0 ==> r.1 == MBUS_FMT_YUYV8_2X8
  {
    if index as int >= |ColourFmts| then (-EINVAL, code)
    else (0, ColourFmts[index].code)
  }

  /** gc0308_enum_framesizes: index 0 gives 640x480, index 1 gives the 0x0 of
      the zero-initialised entries, and an index above gc0308_mode_MAX is
      refused with the request left alone. */
  function EnumFramesizes(fsize: FrmSizeEnum): (r: (int, FrmSizeEnum))
    ensures r.0 == 0 <==> fsize.index <= MODE_MAX
    ensures r.0 != 0 ==> r.0 == -EINVAL && r.1 == fsize
    ensures fsize.index == 0 ==>
      r.1 == fsize.(sizeType := FRMSIZE_TYPE_DISCRETE, width := VGA_WIDTH, height := VGA_HEIGHT)
    ensures fsize.index == 1 ==>
      r.1 == fsize.(sizeType := FRMSIZE_TYPE_DISCRETE, width := 0, height := 0)
  {
    if fsize.index > MODE_MAX then (-EINVAL, fsize)
    else
      var i := fsize.index as nat;
      (0, fsize.(sizeType := FRMSIZE_TYPE_DISCRETE,
                 width := Max(ModeInfoData[0][i].width, ModeInfoData[1][i].width),
                 height := Max(ModeInfoData[0][i].height, ModeInfoData[1][i].height)))
  }

  // ---------------------------------------------------------------------------
  // Frame-interval enumeration

  /** Whether gc0308_enum_frameintervals counts the table entry `m` for `fival`
      when the sensor's pixel format is `pixelformat`. */
  predicate CellMatches(fival: FrmIvalEnum, pixelformat: u32, m: ModeInfo) {
    fival.pixelFormat == pixelformat && fival.width == m.width &&
    fival.height == m.height && m.initData.Some?
  }

  /** ModeInfoData read row by row, the order the enumeration visits it in. */
  const ModeCells: seq<ModeInfo> := ModeInfoData[0] + ModeInfoData[1]

  /** How many of the first `p` entries of ModeCells match. */
  function MatchesBefore(fival: FrmIvalEnum, pixelformat: u32, p: nat): nat
    requires p <= |ModeCells|
  {
    if p == 0 then 0
    else MatchesBefore(fival, pixelformat, p - 1) + (if CellMatches(fival, pixelformat, ModeCells[p - 1]) then 1 else 0)
  }

  /** Whether the enumeration stops at entry `q`: `index == count - 1`, where
      the int `count - 1` is compared as an unsigned int. */
  predicate StopsAt(fival: FrmIvalEnum, pixelformat: u32, q: nat)
    requires q < |ModeCells|
  {
    fival.index == ToU32(MatchesBefore(fival, pixelformat, q + 1) - 1)
  }

  /** Only the first entry of each row can match: with a 640x480 request in the
      sensor's pixel format, entries 0 and 2 match; otherwise none does. */
  lemma {:induction false} MatchesBeforeValue(fival: FrmIvalEnum, pixelformat: u32, p: nat)
    requires p <= |ModeCells|
    ensures MatchesBefore(fival, pixelformat, p) ==
      if fival.pixelFormat == pixelformat && fival.width == VGA_WIDTH && fival.height == VGA_HEIGHT
      then (p + 1) / 2 else 0
  {
    if p > 0 {
      MatchesBeforeValue(fival, pixelformat, p - 1);
      assert ModeCells[p - 1] == if (p - 1) % 2 == 0 then VgaMode else UnsetMode;
    }
  }

  // ---------------------------------------------------------------------------
  // The sensor state record

  /** gc0308_data: the one sensor instance. `fmt` is the position of the current
      format in ColourFmts, None while it is still the NULL that probe leaves. */
  class Sensor {
    const client: I2cClient
    var pix: PixFormat
    var fmt: Option<nat>
    var streamcap: CaptureParm
    var on: bool
    var mclk: u32

    /** Holds in every state the driver reaches from probe: the stored frame
        interval is 15 or 30 fps (so init_device never divides by zero), `fmt`
        is NULL or points into ColourFmts, and the clock is within range. */
    ghost predicate Valid()
      reads this
    {
      && streamcap.timeperframe.numerator != 0
      && IsSupportedFps(Fps(streamcap.timeperframe))
      && (fmt.Some? ==> fmt.value < |ColourFmts|)
      && XCLK_MIN <= mclk <= XCLK_MAX
    }

    /** The initial values gc0308_probe gives the record: everything zero, then
        the device-tree clock clamped by gc0308_set_clk_rate, YUYV at 640x480,
        high-quality capture with frame-interval control at 1/30 s. */
    constructor (client: I2cClient, mclkProperty: u32)
      ensures Valid()
      ensures this.client == client
      ensures mclk == ClampXclk(mclkProperty)
      ensures pix == PixFormat(VGA_WIDTH, VGA_HEIGHT, PIX_FMT_YUYV)
      ensures streamcap == CaptureParm(BitOr(MODE_HIGHQUALITY, CAP_TIMEPERFRAME), 0, Fract(1, DEFAULT_FPS), 0, 0)
      ensures fmt.None? && !on
    {
      this.client := client;
      mclk := ClampXclk(mclkProperty);
      pix := PixFormat(VGA_WIDTH, VGA_HEIGHT, PIX_FMT_YUYV);
      streamcap := CaptureParm(BitOr(MODE_HIGHQUALITY, CAP_TIMEPERFRAME), 0, Fract(1, DEFAULT_FPS), 0, 0);
      fmt := None;
      on := false;
    }

    /** gc0308_s_power: records the requested power state. */
    method SPower(enable: int) returns (ret: int)
      modifies this`on
      ensures on == (enable != 0) && ret == 0
      ensures old(Valid()) ==> Valid()
    {
      on := enable != 0;
      ret := 0;
    }

    /** gc0308_set_clk_rate: clamps `mclk` into [6 MHz, 24 MHz] and passes the
        result to the clock framework, whose answer is `clkSetRate`. */
    method SetClkRate(clkSetRate: u32 -> int) returns (ret: int)
      modifies this`mclk
      ensures mclk == ClampXclk(old(mclk))
      ensures XCLK_MIN <= mclk <= XCLK_MAX
      ensures XCLK_MIN <= old(mclk) <= XCLK_MAX ==> mclk == old(mclk)
      ensures ret == clkSetRate(mclk)
      ensures old(Valid()) ==> Valid()
    {
      var tgtXclk := mclk;
      tgtXclk := Min(tgtXclk, XCLK_MAX);
      tgtXclk := Max(tgtXclk, XCLK_MIN);
      mclk := tgtXclk;
      ret := clkSetRate(mclk);
    }

    /** gc0308_g_parm: for a capture buffer, the caller's structure is cleared
        and given the stored capability, frame interval and capture mode; any
        other buffer type is refused and the structure left alone. */
    method GParm(a: StreamParm) returns (ret: int, r: StreamParm)
      ensures a.bufType == BUF_TYPE_VIDEO_CAPTURE ==>
        ret == 0 &&
        r == StreamParm(BUF_TYPE_VIDEO_CAPTURE,
               CaptureParm(streamcap.capability, streamcap.capturemode, streamcap.timeperframe, 0, 0))
      ensures a.bufType != BUF_TYPE_VIDEO_CAPTURE ==> ret == -EINVAL && r == a
    {
      if a.bufType == BUF_TYPE_VIDEO_CAPTURE {
        r := StreamParm(BUF_TYPE_VIDEO_CAPTURE, ZeroCaptureParm);
        r := r.(capture := r.capture.(capability := streamcap.capability,
                                      timeperframe := streamcap.timeperframe,
                                      capturemode := streamcap.capturemode));
        ret := 0;
      } else {
        ret := -EINVAL;
        r := a;
      }
    }

    /** gc0308_s_parm: for a capture buffer, rewrites the requested frame
        interval to the negotiated one and returns 0; it stores the interval and
        capture mode only when the negotiated rate is 15 or 30 fps, so a rate of
        16 to 29 fps returns 0 and stores nothing. Any other buffer type is
        refused with nothing changed. */
    method SParm(a: StreamParm) returns (ret: int, r: StreamParm)
      modifies this`streamcap
      ensures a.bufType != BUF_TYPE_VIDEO_CAPTURE ==>
        ret == -EINVAL && r == a && streamcap == old(streamcap)
      ensures a.bufType == BUF_TYPE_VIDEO_CAPTURE ==>
        ret == 0 &&
        r == a.(capture := a.capture.(timeperframe := NegotiateInterval(a.capture.timeperframe)))
      ensures a.bufType == BUF_TYPE_VIDEO_CAPTURE ==>
        var t := NegotiateInterval(a.capture.timeperframe);
        streamcap == if IsSupportedFps(Fps(t))
                     then old(streamcap).(timeperframe := t, capturemode := a.capture.capturemode)
                     else old(streamcap)
      ensures old(Valid()) ==> Valid()
    {
      r := a;
      if a.bufType != BUF_TYPE_VIDEO_CAPTURE {
        ret := -EINVAL;
        return;
      }
      var tpf := a.capture.timeperframe;
      if tpf.numerator == 0 || tpf.denominator == 0 {
        tpf := Fract(1, DEFAULT_FPS);
      }
      var tgtFps := tpf.denominator / tpf.numerator;
      if tgtFps > MAX_FPS {
        tpf := Fract(1, MAX_FPS);
      } else if tgtFps < MIN_FPS {
        tpf := Fract(1, MIN_FPS);
      }
      r := r.(capture := r.capture.(timeperframe := tpf));
      tgtFps := tpf.denominator / tpf.numerator;
      ret := 0;
      if tgtFps != 15 && tgtFps != 30 {
        // the source jumps to its exit label with the result still 0
        return;
      }
      streamcap := streamcap.(timeperframe := tpf, capturemode := a.capture.capturemode);
    }

    /** gc0308_s_fmt: refuses an unknown code with nothing changed; otherwise
        normalises the request as try_fmt does and makes its format current. */
    method SFmt(mf: MbusFrameFmt) returns (ret: int, r: MbusFrameFmt)
      modifies this`fmt
      ensures !KnownCode(mf.code) ==> ret == -EINVAL && r == mf && fmt == old(fmt)
      ensures KnownCode(mf.code) ==>
        ret == 0 && r == mf.(field := FIELD_NONE) &&
        fmt.Some? && fmt.value < |ColourFmts| && ColourFmts[fmt.value].code == mf.code
      ensures old(Valid()) ==> Valid()
    {
      var found := FindDataFmt(mf.code);
      if found.None? {
        return -EINVAL, mf;
      }
      var _, tried := TryFmt(mf);
      r := tried;
      fmt := FindDataFmt(r.code);
      ret := 0;
    }

    /** gc0308_g_fmt: reports the current format's code and colour space with
        progressive field order. The source dereferences `sensor->fmt`, so the
        format must have been set. */
    method GFmt(mf: MbusFrameFmt) returns (ret: int, r: MbusFrameFmt)
      requires fmt.Some? && fmt.value < |ColourFmts|
      ensures ret == 0
      ensures r == mf.(code := ColourFmts[fmt.value].code,
                       colorspace := ColourFmts[fmt.value].colorspace,
                       field := FIELD_NONE)
      ensures KnownCode(r.code)
    {
      var f := ColourFmts[fmt.value];
      r := mf.(code := f.code, colorspace := f.colorspace, field := FIELD_NONE);
      ret := 0;
    }

    /** gc0308_enum_frameintervals: walks gc0308_mode_info_data row by row,
        counting the entries that match the request, and stops when the count
        reaches `index + 1`. The net effect: a 640x480 request in the sensor's
        pixel format gets 1/15 s at index 0 and 1/30 s at index 1; everything
        else is refused. */
    method EnumFrameintervals(fival: FrmIvalEnum) returns (ret: int, r: FrmIvalEnum)
      ensures ret == 0 || ret == -EINVAL
      ensures fival.index > MODE_MAX || fival.width == 0 || fival.height == 0 || fival.pixelFormat == 0 ==>
        ret == -EINVAL && r == fival
      ensures ret == 0 <==>
        fival.index <= MODE_MAX && fival.pixelFormat != 0 && fival.pixelFormat == pix.pixelformat &&
        fival.width == VGA_WIDTH && fival.height == VGA_HEIGHT
      ensures ret == 0 ==>
        r == fival.(ivalType := FRMIVAL_TYPE_DISCRETE, discrete := Fract(1, FrameRates[fival.index]))
      ensures ret != 0 && fival.index <= MODE_MAX && fival.width != 0 && fival.height != 0 && fival.pixelFormat != 0 ==>
        r == fival.(ivalType := FRMIVAL_TYPE_DISCRETE, discrete := fival.discrete.(numerator := 1))
    {
      r := fival;
      ret := -EINVAL;
      // `index < 0` cannot hold for the unsigned index
      if fival.index > MODE_MAX {
        return;
      }
      if fival.width == 0 || fival.height == 0 || fival.pixelFormat == 0 {
        return;
      }
      r := r.(ivalType := FRMIVAL_TYPE_DISCRETE, discrete := r.discrete.(numerator := 1));
      var pf := pix.pixelformat;
      var count: int := 0;
      ghost var p := 0;
      var i := 0;
      while i < |ModeInfoData|
        invariant 0 <= i <= |ModeInfoData|
        invariant p == 2 * i
        invariant count == MatchesBefore(fival, pf, p)
        invariant forall q :: 0 <= q < p ==> !StopsAt(fival, pf, q)
      {
        var j := 0;
        while j < MODE_COLUMNS
          invariant 0 <= j <= MODE_COLUMNS
          invariant p == 2 * i + j
          invariant count == MatchesBefore(fival, pf, p)
          invariant forall q :: 0 <= q < p ==> !StopsAt(fival, pf, q)
        {
          var m := ModeInfoData[i][j];
          assert m == ModeCells[p];
          if fival.pixelFormat == pf && fival.width == m.width && fival.height == m.height && m.initData.Some? {
            count := count + 1;
          }
          if fival.index == ToU32(count - 1) {
            MatchesBeforeValue(fival, pf, p + 1);
            r := r.(discrete := r.discrete.(denominator := FrameRates[i]));
            ret := 0;
            return;
          }
          j := j + 1;
          p := p + 1;
        }
        i := i + 1;
      }
      MatchesBeforeValue(fival, pf, 1);
      MatchesBeforeValue(fival, pf, 3);
      assert !StopsAt(fival, pf, 0) && !StopsAt(fival, pf, 2);
    }

    // -------------------------------------------------------------------------
    // Register replay on the sensor's client

    /** gc0308_write_reg: sends the frame [reg, val] and reports -1 when the
        transfer fails, 0 otherwise. */
    method WriteReg(reg: u8, val: u8) returns (ret: int)
      modifies client
      ensures client.sent == old(client.sent) + [[reg, val]]
      ensures ret == (if client.reply(|old(client.sent)|) < 0 then -1 else 0)
    {
      var buf: seq<u8> := [reg, val, 0];
      var n := client.MasterSend(buf[..2]);
      assert buf[..2] == [reg, val];
      if n < 0 {
        return -1;
      }
      return 0;
    }

    /** gc0308_download_firmware: writes the table in order and stops at the
        first failed write. */
    method DownloadFirmware(table: seq<RegValue>) returns (ret: int)
      modifies client
      ensures Replayed(table, client.reply, old(client.sent), client.sent, ret)
    {
      ghost var base := |client.sent|;
      ret := 0;
      var i := 0;
      while i < |table|
        invariant 0 <= i <= |table|
        invariant ret == 0
        invariant client.sent == old(client.sent) + Frames(table)[..i]
        invariant forall j :: base <= j < base + i ==> client.reply(j) >= 0
      {
        ret := WriteReg(table[i].regAddr, table[i].val);
        assert Frames(table)[..i + 1] == Frames(table)[..i] + [Frame(table[i])];
        if ret < 0 {
          assert FirstRejected(client.reply, base, base + |table|) == base + i;
          return;
        }
        i := i + 1;
      }
      assert Frames(table)[..i] == Frames(table);
    }

    /** gc0308_init_mode: replays gc0308_default_setting and, only when every
        write succeeded, records the 640x480 frame size. */
    method InitMode() returns (ret: int)
      modifies this`pix, client
      ensures Replayed(DefaultSetting, client.reply, old(client.sent), client.sent, ret)
      ensures pix == if ret == 0 then old(pix).(width := VGA_WIDTH, height := VGA_HEIGHT) else old(pix)
      ensures old(Valid()) ==> Valid()
    {
      ret := DownloadFirmware(DefaultSetting);
      if ret < 0 {
        return;
      }
      pix := pix.(width := VGA_WIDTH, height := VGA_HEIGHT);
    }

    /** init_device: marks the sensor on, then programs it only when the stored
        frame interval gives 15 or 30 fps; otherwise it refuses with no write. */
    method InitDevice() returns (ret: int)
      requires streamcap.timeperframe.numerator != 0
      modifies this`on, this`pix, client
      ensures on
      ensures !IsSupportedFps(Fps(streamcap.timeperframe)) ==>
        ret == -EINVAL && client.sent == old(client.sent) && pix == old(pix)
      ensures IsSupportedFps(Fps(streamcap.timeperframe)) ==>
        Replayed(DefaultSetting, client.reply, old(client.sent), client.sent, ret) &&
        pix == if ret == 0 then old(pix).(width := VGA_WIDTH, height := VGA_HEIGHT) else old(pix)
      ensures old(Valid()) ==> Valid() && ret != -EINVAL
    {
      on := true;
      var tgtFps := streamcap.timeperframe.denominator / streamcap.timeperframe.numerator;
      assert tgtFps == Fps(streamcap.timeperframe);
      if tgtFps != 15 && tgtFps != 30 {
        return -EINVAL;
      }
      ret := InitMode();
    }
  }
}
