/** Data of the Aptina MT9D113 sensor driver: register-table entries, the
    sentinel addresses, the resolution-to-table choice and the ioctl
    byte-to-table dispatch, with the short tables written out. */
module Mt9d113Tables {
  import opened Wrappers

  newtype u8 = x: int | 0 <= x < 0x100
  newtype u16 = x: int | 0 <= x < 0x1_0000

  /** One (register, value) pair of a table (struct sensor_reg). */
  datatype Reg = Reg(addr: u16, val: u16)

  /** An entry with this address means "sleep for val milliseconds". */
  const SENSOR_WAIT_MS: u16 := 0
  /** An entry with this address ends the table. */
  const SENSOR_TABLE_END: u16 := 1
  /** A register write is retried this many times after the first attempt. */
  const SENSOR_MAX_RETRIES: nat := 3

  /** Values of status register 0x0000 that show a mode was already programmed. */
  const SENSOR_640_WIDTH_VAL: u16 := 0x280
  const SENSOR_720_WIDTH_VAL: u16 := 0x500
  const SENSOR_1600_WIDTH_VAL: u16 := 0x640

  /** A table is well formed from index i on when an end marker follows. */
  predicate HasEndFrom(t: seq<Reg>, i: nat)
  {
    exists j :: i <= j < |t| && t[j].addr == SENSOR_TABLE_END
  }

  predicate Terminated(t: seq<Reg>)
  {
    HasEndFrom(t, 0)
  }

  /** A table whose last entry is the end marker is terminated. */
  lemma LastIsEnd(t: seq<Reg>)
    requires |t| > 0 && t[|t| - 1].addr == SENSOR_TABLE_END
    ensures Terminated(t)
  {
    assert t[|t| - 1].addr == SENSOR_TABLE_END;
  }

  /** The index of the first end marker at or after i. */
  function FirstEnd(t: seq<Reg>, i: nat): (e: nat)
    requires HasEndFrom(t, i)
    ensures i <= e < |t| && t[e].addr == SENSOR_TABLE_END
    ensures forall k :: i <= k < e ==> t[k].addr != SENSOR_TABLE_END
    decreases |t| - i
  {
    if t[i].addr == SENSOR_TABLE_END then i else FirstEnd(t, i + 1)
  }

  // ---------------------------------------------------------------------
  // Sensor modes and the mode table

  /** The four canned capture modes (enum SENSOR_MODE_*). */
  datatype SensorMode = Mode1600x1200 | Mode1280x720 | Mode800x600 | Mode640x480

  /** The enum value the driver stores in info->mode. */
  function ModeIndex(m: SensorMode): (k: int)
    ensures 0 <= k <= 3
    ensures m == Mode1600x1200 <==> k == 0
    ensures m == Mode640x480 <==> k == 3
  {
    match m
    case Mode1600x1200 => 0
    case Mode1280x720 => 1
    case Mode800x600 => 2
    case Mode640x480 => 3
  }

  /** Distinct modes are stored as distinct values of info->mode. */
  lemma ModeIndexInjective(m: SensorMode, m': SensorMode)
    ensures ModeIndex(m) == ModeIndex(m') ==> m == m'
  {
  }

  /** info->mode is -1 (nothing programmed) or one of the mode indices. */
  predicate ValidMode(mode: int)
  {
    -1 <= mode <= 3
  }

  /** The table chosen for a requested resolution; anything that is not one
      of the four supported resolutions is served with the 640x480 table. */
  function SelectTable(xres: int, yres: int): (m: SensorMode)
    ensures m == Mode1600x1200 <==> xres == 1600 && yres == 1200
    ensures m == Mode1280x720 <==> xres == 1280 && yres == 720
    ensures m == Mode800x600 <==> xres == 800 && yres == 600
    ensures m == Mode640x480 <==> !((xres == 1600 && yres == 1200) || (xres == 1280 && yres == 720) || (xres == 800 && yres == 600))
  {
    if xres == 1600 && yres == 1200 then Mode1600x1200
    else if xres == 1280 && yres == 720 then Mode1280x720
    else if xres == 800 && yres == 600 then Mode800x600
    else if xres == 640 && yres == 480 then Mode640x480
    else Mode640x480
  }

  /** The tables sensor_set_mode writes: mode_table[] and the conformance
      test workaround. The long tables' register values come from the
      sensor's data sheet and are left as parameters; FromSource pins the two
      short ones to their values in the driver. */
  datatype ModeTables = ModeTables(mode1600x1200: seq<Reg>, mode1280x720: seq<Reg>, mode800x600: seq<Reg>,
                                   mode640x480: seq<Reg>, ctsZoomTest: seq<Reg>)

  predicate TablesTerminated(tables: ModeTables)
  {
    && Terminated(tables.mode1600x1200) && Terminated(tables.mode1280x720) && Terminated(tables.mode800x600)
    && Terminated(tables.mode640x480) && Terminated(tables.ctsZoomTest)
  }

  predicate FromSource(tables: ModeTables)
  {
    tables.mode1600x1200 == Mode1600x1200Table && tables.ctsZoomTest == CtsZoomTestTable
  }

  /** The two tables given in full end with the END sentinel, so a record
      holding them needs only the long tables to be terminated. */
  lemma SourceTablesTerminated(tables: ModeTables)
    requires FromSource(tables)
    requires Terminated(tables.mode1280x720) && Terminated(tables.mode800x600) && Terminated(tables.mode640x480)
    ensures TablesTerminated(tables)
  {
    LastIsEnd(Mode1600x1200Table);
    LastIsEnd(CtsZoomTestTable);
  }

  /** mode_table[m]. */
  function ModeTable(tables: ModeTables, m: SensorMode): (t: seq<Reg>)
    requires TablesTerminated(tables)
    ensures Terminated(t)
  {
    match m
    case Mode1600x1200 => tables.mode1600x1200
    case Mode1280x720 => tables.mode1280x720
    case Mode800x600 => tables.mode800x600
    case Mode640x480 => tables.mode640x480
  }

  const Mode1600x1200Table: seq<Reg> := [
    Reg(0x098C, 0xA115), Reg(0x0990, 0x0002), Reg(0x098C, 0xA103), Reg(0x0990, 0x0002),
    Reg(SENSOR_WAIT_MS, 100), Reg(SENSOR_TABLE_END, 0x00)]

  /** Written instead of a second pass when 1600x1200 is requested and the
      sensor shows no previously programmed mode. */
  const CtsZoomTestTable: seq<Reg> := [
    Reg(0x098C, 0xA115), Reg(0x0990, 0x0002), Reg(0x098C, 0xA103), Reg(0x0990, 0x0002),
    Reg(SENSOR_WAIT_MS, 100), Reg(SENSOR_TABLE_END, 0x00)]

  // ---------------------------------------------------------------------
  // Image-effect tables

  const ColorEffectNone: seq<Reg> := [
    Reg(0x098C, 0x2759), Reg(0x0990, 0x6440), Reg(0x098C, 0x275B), Reg(0x0990, 0x6440),
    Reg(0x098C, 0xA103), Reg(0x0990, 0x0005), Reg(SENSOR_TABLE_END, 0x0000)]
  const ColorEffectMono: seq<Reg> := [
    Reg(0x098C, 0x2759), Reg(0x0990, 0x6441), Reg(0x098C, 0x275B), Reg(0x0990, 0x6441),
    Reg(0x098C, 0xA103), Reg(0x0990, 0x0005), Reg(SENSOR_TABLE_END, 0x0000)]
  const ColorEffectSepia: seq<Reg> := [
    Reg(0x098C, 0x2763), Reg(0x0990, 0xb023), Reg(0x098C, 0x2759), Reg(0x0990, 0x6442),
    Reg(0x098C, 0x275B), Reg(0x0990, 0x6442), Reg(0x098C, 0xA103), Reg(0x0990, 0x0005),
    Reg(SENSOR_TABLE_END, 0x0000)]
  const ColorEffectNegative: seq<Reg> := [
    Reg(0x098C, 0x2759), Reg(0x0990, 0x6443), Reg(0x098C, 0x275B), Reg(0x0990, 0x6443),
    Reg(0x098C, 0xA103), Reg(0x0990, 0x0005), Reg(SENSOR_TABLE_END, 0x0000)]
  const ColorEffectSolarize: seq<Reg> := [
    Reg(0x098C, 0x2759), Reg(0x0990, 0x6444), Reg(0x098C, 0x275B), Reg(0x0990, 0x6444),
    Reg(0x098C, 0xA103), Reg(0x0990, 0x0005), Reg(SENSOR_TABLE_END, 0x0000)]
  /** The sensor's image processor has no posterize effect: an empty table. */
  const ColorEffectPosterize: seq<Reg> := [Reg(SENSOR_TABLE_END, 0x0000)]

  const WhitebalanceAuto: seq<Reg> := [
    Reg(0x098C, 0xA118), Reg(0x0990, 0x0001), Reg(0x098C, 0xA11e), Reg(0x0990, 0x0001),
    Reg(0x098C, 0xA124), Reg(0x0990, 0x0000), Reg(0x098C, 0xA12a), Reg(0x0990, 0x0001),
    Reg(0x098C, 0xA103), Reg(0x0990, 0x0005), Reg(SENSOR_TABLE_END, 0x0000)]
  const WhitebalanceIncandescent: seq<Reg> := [
    Reg(0x098C, 0xA115), Reg(0x0990, 0x0000), Reg(0x098C, 0xA11F), Reg(0x0990, 0x0000),
    Reg(0x098C, 0xA103), Reg(0x0990, 0x0005), Reg(0x098C, 0xA353), Reg(0x0990, 0x002B),
    Reg(0x098C, 0xA34E), Reg(0x0990, 0x007B), Reg(0x098C, 0xA34F), Reg(0x0990, 0x0080),
    Reg(0x098C, 0xA350), Reg(0x0990, 0x007E), Reg(SENSOR_TABLE_END, 0x0000)]
  const WhitebalanceDaylight: seq<Reg> := [
    Reg(0x098C, 0xA115), Reg(0x0990, 0x0000), Reg(0x098C, 0xA11F), Reg(0x0990, 0x0000),
    Reg(0x098C, 0xA103), Reg(0x0990, 0x0005), Reg(0x098C, 0xA353), Reg(0x0990, 0x007F),
    Reg(0x098C, 0xA34E), Reg(0x0990, 0x008E), Reg(0x098C, 0xA34F), Reg(0x0990, 0x0080),
    Reg(0x098C, 0xA350), Reg(0x0990, 0x0074), Reg(SENSOR_TABLE_END, 0x0000)]
  const WhitebalanceFluorescent: seq<Reg> := [
    Reg(0x098C, 0xA115), Reg(0x0990, 0x0000), Reg(0x098C, 0xA11F), Reg(0x0990, 0x0000),
    Reg(0x098C, 0xA103), Reg(0x0990, 0x0005), Reg(0x098C, 0xA353), Reg(0x0990, 0x0036),
    Reg(0x098C, 0xA34E), Reg(0x0990, 0x0099), Reg(0x098C, 0xA34F), Reg(0x0990, 0x0080),
    Reg(0x098C, 0xA350), Reg(0x0990, 0x007D), Reg(SENSOR_TABLE_END, 0x0000)]

  const Exposure2: seq<Reg> := [Reg(0x098C, 0xA24F), Reg(0x0990, 0x004f), Reg(SENSOR_TABLE_END, 0x0000)]
  const Exposure1: seq<Reg> := [Reg(0x098C, 0xA24F), Reg(0x0990, 0x003e), Reg(SENSOR_TABLE_END, 0x0000)]
  const Exposure0: seq<Reg> := [Reg(0x098C, 0xA24F), Reg(0x0990, 0x0032), Reg(SENSOR_TABLE_END, 0x0000)]
  const ExposureNegative1: seq<Reg> := [Reg(0x098C, 0xA24F), Reg(0x0990, 0x002a), Reg(SENSOR_TABLE_END, 0x0000)]
  const ExposureNegative2: seq<Reg> := [Reg(0x098C, 0xA24F), Reg(0x0990, 0x0022), Reg(SENSOR_TABLE_END, 0x0000)]

  // The enum values the user passes as one byte.
  const YUV_ColorEffect_Mono: u8 := 3
  const YUV_ColorEffect_Negative: u8 := 4
  const YUV_ColorEffect_None: u8 := 5
  const YUV_ColorEffect_Posterize: u8 := 6
  const YUV_ColorEffect_Sepia: u8 := 7
  const YUV_ColorEffect_Solarize: u8 := 8

  const YUV_Whitebalance_Auto: u8 := 1
  const YUV_Whitebalance_Incandescent: u8 := 2
  const YUV_Whitebalance_Fluorescent: u8 := 3
  const YUV_Whitebalance_Daylight: u8 := 5

  const YUV_Exposure_Positive2: u8 := 1
  const YUV_Exposure_Positive1: u8 := 2
  const YUV_Exposure_Number0: u8 := 3
  const YUV_Exposure_Negative1: u8 := 4
  const YUV_Exposure_Negative2: u8 := 5

  /** The table a SET_COLOR_EFFECT byte selects; None for the effects the
      driver ignores (invalid, aqua, blackboard, whiteboard, anything else). */
  function ColorEffectTable(b: u8): (r: Option<seq<Reg>>)
    ensures r.Some? <==> 3 <= b <= 8
    ensures r.Some? ==> Terminated(r.value)
    ensures r == Some(ColorEffectPosterize) <==> b == YUV_ColorEffect_Posterize
  {
    LastIsEnd(ColorEffectNone); LastIsEnd(ColorEffectMono); LastIsEnd(ColorEffectSepia);
    LastIsEnd(ColorEffectNegative); LastIsEnd(ColorEffectSolarize); LastIsEnd(ColorEffectPosterize);
    if b == YUV_ColorEffect_None then Some(ColorEffectNone)
    else if b == YUV_ColorEffect_Mono then Some(ColorEffectMono)
    else if b == YUV_ColorEffect_Sepia then Some(ColorEffectSepia)
    else if b == YUV_ColorEffect_Negative then Some(ColorEffectNegative)
    else if b == YUV_ColorEffect_Solarize then Some(ColorEffectSolarize)
    else if b == YUV_ColorEffect_Posterize then Some(ColorEffectPosterize)
    else None
  }

  /** The table a SET_WHITE_BALANCE byte selects; None for the modes the
      driver ignores. */
  function WhitebalanceTable(b: u8): (r: Option<seq<Reg>>)
    ensures r.Some? <==> b in {1, 2, 3, 5}
    ensures r.Some? ==> Terminated(r.value)
  {
    LastIsEnd(WhitebalanceAuto); LastIsEnd(WhitebalanceIncandescent);
    LastIsEnd(WhitebalanceDaylight); LastIsEnd(WhitebalanceFluorescent);
    if b == YUV_Whitebalance_Auto then Some(WhitebalanceAuto)
    else if b == YUV_Whitebalance_Incandescent then Some(WhitebalanceIncandescent)
    else if b == YUV_Whitebalance_Daylight then Some(WhitebalanceDaylight)
    else if b == YUV_Whitebalance_Fluorescent then Some(WhitebalanceFluorescent)
    else None
  }

  /** The table a SET_EXPOSURE byte selects; None for anything but the five
      exposure steps. */
  function ExposureTable(b: u8): (r: Option<seq<Reg>>)
    ensures r.Some? <==> 1 <= b <= 5
    ensures r.Some? ==> Terminated(r.value) && |r.value| == 3
  {
    LastIsEnd(Exposure0); LastIsEnd(Exposure1); LastIsEnd(Exposure2);
    LastIsEnd(ExposureNegative1); LastIsEnd(ExposureNegative2);
    if b == YUV_Exposure_Number0 then Some(Exposure0)
    else if b == YUV_Exposure_Positive1 then Some(Exposure1)
    else if b == YUV_Exposure_Positive2 then Some(Exposure2)
    else if b == YUV_Exposure_Negative1 then Some(ExposureNegative1)
    else if b == YUV_Exposure_Negative2 then Some(ExposureNegative2)
    else None
  }

  /** The exposure tables form a monotone ladder: a brighter step writes a
      larger target value to the same variable. */
  lemma ExposureLadder()
    ensures forall b: u8, b': u8 :: 1 <= b < b' <= 5 ==>
      ExposureTable(b).value[1].val > ExposureTable(b').value[1].val
  {
  }
}
