# GC0308 sensor driver: a Dafny model

This project models the GC0308 camera-sensor driver for V4L2 (Video4Linux2). The
driver is a single C file that plugs a GC0308 CMOS image sensor into the kernel's
capture pipeline as a sub-device. Its logic sits around the sensor's state record
`gc0308_data`:

- negotiating the frame interval (`s_parm` / `g_parm`);
- clamping the master clock;
- replaying the vendor register table over I2C, stopping at the first failed write;
- normalising and enumerating the media-bus format, frame sizes and frame intervals.

The model has two modules:

- `V4l2` (`v4l2.dfy`): the kernel types the driver touches, as Dafny values.
  - `u8` and `u32` are newtypes.
  - `v4l2_fract`, `v4l2_captureparm`, `v4l2_streamparm`, `v4l2_mbus_framefmt`, `v4l2_frmsizeenum` and `v4l2_frmivalenum` are datatypes.
  - The constants come from the V4L2 and errno headers (`EINVAL` = 22, `V4L2_BUF_TYPE_VIDEO_CAPTURE` = 1, `V4L2_FIELD_NONE` = 1, `V4L2_COLORSPACE_JPEG` = 7, `V4L2_MBUS_FMT_YUYV8_2X8` = 0x2008, `V4L2_PIX_FMT_YUYV` = fourcc `YUYV`, `V4L2_MODE_HIGHQUALITY` = 1, `V4L2_CAP_TIMEPERFRAME` = 0x1000, `V4L2_FRMSIZE/FRMIVAL_TYPE_DISCRETE` = 1).
- `Gc0308` (`gc0308.dfy`): the driver itself.
  - The constant tables: `gc0308_default_setting` (its 236 entries transcribed), `gc0308_colour_fmts`, `gc0308_mode_info_data` with its zero-filled second column, and `gc0308_framerates`.
  - The pure clamp arithmetic, written as functions.
  - A class `I2cClient` that stands in for the bus. It records every frame handed to `i2c_master_send`. Its `reply` oracle fixes in advance what the k-th transfer returns.
  - A class `Sensor` for `gc0308_data`, with fields `pix`, `fmt`, `streamcap`, `on` and `mclk`, and one method per callback that updates them.

Structures the caller owns are passed in as values and handed back rewritten. This covers `v4l2_streamparm`, `v4l2_mbus_framefmt` and the enumeration requests, which the C code updates through a pointer.

`Sensor.Valid()` is the record's invariant, and every method preserves it. It says:

- the stored frame interval has a non-zero numerator;
- the stored rate is exactly 15 or 30 fps;
- `fmt` is NULL or points into `gc0308_colour_fmts`;
- `mclk` lies in [6 MHz, 24 MHz].

Two behaviours of the code are reproduced as written:

- `gc0308_s_parm`: an in-range rate other than 15 or 30 fps (16 to 29) jumps to the exit label with the result still 0. The call reports success and stores nothing, although the comment above the function promises an error and a revert.
- `gc0308_enum_frameintervals`: the unsigned `index` is compared with the signed `count - 1`. The model converts `count - 1` to unsigned explicitly (`V4l2.ToU32`), so a count of 0 can never match.

## Model

| member | source | states |
|---|---|---|
| `V4l2.ToU32` | gc0308.c:1107 | converting an int to unsigned keeps non-negative values and adds 2^32 to negative ones, so `count - 1` with `count == 0` becomes 4294967295 |
| `Gc0308.NegotiateInterval` | gc0308.c:934-954 | the negotiated interval has a non-zero numerator and a rate in [15, 30]; a zero numerator or denominator gives 1/30; a rate above 30 gives 1/30 and below 15 gives 1/15; an in-range request (e.g. 31/2) is kept as given |
| `Gc0308.NegotiateIntervalIdempotent` | gc0308.c:941-950 | negotiating twice is the same as negotiating once |
| `Gc0308.NegotiatedRateStoredIff` | gc0308.c:952-966 | the negotiated rate is 15 or 30 (so s_parm stores it) exactly when the request had a zero field or was not strictly between 15 and 30 fps |
| `Gc0308.ClampXclk` | gc0308.c:1124-1127 | the clamped clock lies in [6000000, 24000000]; an in-range clock is unchanged; values below or above go to the nearer bound |
| `Gc0308.ClampXclkIdempotent` | gc0308.c:1124-1127 | clamping twice equals clamping once |
| `Gc0308.FirstRejected` | gc0308.c:813-817 | the first transfer the bus rejects: every earlier transfer was accepted and, unless none was rejected, this one failed |
| `Gc0308.ReplayOutcome` | gc0308.c:807-823 | a replay returns 0 or -1; 0 exactly when every write was accepted, and then the whole table was sent; the frames sent are always a prefix of the table's frames; on -1 the last frame sent is the rejected one and all earlier ones were accepted |
| `Gc0308.FindDataFmt` | gc0308.c:728-738 | returns a position in the format table whose code matches, or NULL exactly when no entry has the code |
| `Gc0308.TryFmt` | gc0308.c:993-1006 | always returns 0 and sets the field order to NONE; a known code keeps its code and colour space; an unknown one becomes YUYV8_2X8/JPEG; the result always has a known code, so trying it again changes nothing |
| `Gc0308.EnumFmt` | gc0308.c:1039-1047 | succeeds exactly for index 0, giving YUYV8_2X8; any other index returns -EINVAL and leaves the code untouched |
| `Gc0308.EnumFramesizes` | gc0308.c:1057-1071 | succeeds exactly for index <= 1; index 0 gives a discrete 640x480, index 1 the 0x0 of the zero-filled entries; a larger index returns -EINVAL with the request untouched |
| `Gc0308.MatchesBeforeValue` | gc0308.c:1099-1106 | among the mode-table entries walked row by row, only the first entry of each row can match: a 640x480 request in the sensor's pixel format matches entries 0 and 2, anything else matches none |
| `Gc0308.Sensor.constructor` | gc0308.c:1278-1320 | the record after probe's initialisation: clock clamped, YUYV 640x480, capability HIGHQUALITY or TIMEPERFRAME, capture mode 0, 1/30 s, no format, power off; the invariant holds |
| `Gc0308.Sensor.SPower` | gc0308.c:854-867 | records whether power was requested on and returns 0 |
| `Gc0308.Sensor.SetClkRate` | gc0308.c:1118-1134 | the new mclk is the old one clamped into [6 MHz, 24 MHz] (unchanged when already in range); the result is the clock framework's answer for that rate |
| `Gc0308.Sensor.GParm` | gc0308.c:876-911 | for a capture buffer returns 0 and exactly the stored capability, interval and capture mode, with every other field zero; any other type returns -EINVAL with the structure untouched |
| `Gc0308.Sensor.SParm` | gc0308.c:922-991 | a non-capture type returns -EINVAL and changes nothing; a capture request returns 0 and gets the negotiated interval written back; the interval and capture mode are stored only when the negotiated rate is 15 or 30, so a stored 15/30 stays 15/30 |
| `Gc0308.Sensor.SFmt` | gc0308.c:1008-1022 | an unknown code returns -EINVAL and leaves both the request and the current format as they were; a known code returns 0, forces the field order to NONE and makes that format current |
| `Gc0308.Sensor.GFmt` | gc0308.c:1024-1037 | reports the current format's code and colour space with field order NONE, and leaves width and height as given |
| `Gc0308.Sensor.EnumFrameintervals` | gc0308.c:1081-1116 | an index above 1 or a zero width, height or pixel format returns -EINVAL untouched; otherwise succeeds exactly for 640x480 in the stored pixel format, giving 1/15 s at index 0 and 1/30 s at index 1 |
| `Gc0308.Sensor.WriteReg` | gc0308.c:764-779 | sends exactly the frame [reg, val] and returns -1 if the transfer failed, 0 otherwise |
| `Gc0308.Sensor.DownloadFirmware` | gc0308.c:807-823 | the bus log grows by the table's frames in order, up to and including the first rejected one, and the result is -1 if one was rejected and 0 otherwise |
| `Gc0308.Sensor.InitMode` | gc0308.c:825-843 | replays the default table; the frame size becomes 640x480 only when the replay returned 0 |
| `Gc0308.Sensor.InitDevice` | gc0308.c:1141-1167 | sets power on; if the stored rate is not 15 or 30, returns -EINVAL with no write and no size change; otherwise behaves as init_mode; from a valid state it never returns -EINVAL |

## Left out

- Bus reads are left out: `gc0308_read_reg`, `get_device_id` and `get_pix_format`. Only the result of each write transfer is modelled, as an oracle fixed in advance.
- Power sequencing is left out: the GPIO toggling and delays in `gc0308_reset` and `gc0308_power_down`, and the 300 ms wait in `gc0308_init_mode`. They are timing only.
- The clock framework is foreign code. `clk_enable`/`clk_disable` in `gc0308_s_power` are dropped. The result of `clk_set_rate` is a parameter of `SetClkRate`.
- Most of probe and remove is kernel glue and is left out: pinctrl, GPIO requests, device-tree reads, `v4l2_i2c_subdev_init`, async (un)registration, `to_gc0308`. The constructor models only the initial field values probe writes. The device-tree `mclk` is a constructor parameter. Probe's later calls to `init_device` are the separate `InitDevice` method.
- `gc0308_setting_30fps_VGA_640_480` is never referenced and is not modelled.
- Fields the driver never reads or writes are not modelled: brightness, hue, contrast, saturation, red, green, blue, ae_mode. The same goes for the fields of `v4l2_pix_format` other than width, height and pixelformat.
- `mclk_source`, `csi` and `io_init` are written by probe (from the device tree and with `gc0308_reset`) and never read, so they are left out with the rest of probe.
- Of the `v4l2_streamparm` union, only the `capture` member is modelled.
- Logging (`pr_err`, `pr_debug`, `printk`) is left out.
- Caller-owned structures are values passed in and returned. The model does not capture aliasing between them and the sensor record; none exists in the source.
- Gc0308.FindDataFmt: states no separate first-match clause. The format table has a single entry, so `r.value < |ColourFmts|` already forces the match to be entry 0, the first one.
- Gc0308.Sensor.GFmt: requires that a format has been set, because the source dereferences `sensor->fmt`. Probe leaves that pointer NULL, so `g_fmt` before a successful `s_fmt` is outside what the model describes.
