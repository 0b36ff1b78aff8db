/**
 * Bit-field encoders of the Tegra CSI (camera serial interface) registers.
 *
 * Every encoder macro of the header has the form `(((x) & mask) << shift)`:
 * it keeps the low bits of `x` selected by `mask` and moves them to bit
 * `shift` of a 32-bit control word.  Drivers build a register value by OR-ing
 * several encoded fields.  A `Field` describes one macro and `Encode` is the
 * macro itself; a `seq<Field>` lists the fields of one register from the most
 * significant down, in the header's order; and a register with several fields
 * has a record of its field values, an encoder that ORs the encoded fields
 * together and a decoder that reads each field back by shift and mask.
 */
module Csi {
  import opened Wrappers

  /** A shift that keeps at least bit 0 of the mask inside a 32-bit word. */
  type Shift = s: bv6 | s < 32

  /** The macro `(((x) & mask) << shift)`. */
  datatype Field = Field(mask: bv32, shift: Shift)

  /** The bits of the word that the field occupies. */
  function Bits(f: Field): bv32 {
    f.mask << f.shift
  }

  /** The encoder macro. */
  function Encode(f: Field, x: bv32): bv32 {
    (x & f.mask) << f.shift
  }

  /** Reading the field back out of a register word. */
  function Decode(f: Field, w: bv32): bv32 {
    (w >> f.shift) & f.mask
  }

  /** `x` is a value the field holds without losing bits. */
  predicate Fits(f: Field, x: bv32) {
    x & !f.mask == 0
  }

  /**
   * What the header promises of an encoder: the encoded value lies inside the
   * field, the field reads back as the masked argument, and masking the
   * argument first makes no difference.
   */
  predicate EncodesInPlace(f: Field, x: bv32) {
    && Encode(f, x) & !Bits(f) == 0
    && Decode(f, Encode(f, x)) == x & f.mask
    && Encode(f, x & f.mask) == Encode(f, x)
  }

  // ---------------------------------------------------------------------------
  // Layouts: the fields of one register

  /** The bits of the word that some field of the layout occupies. */
  function LayoutBits(fs: seq<Field>): bv32 {
    if |fs| == 0 then 0 else Bits(fs[0]) | LayoutBits(fs[1..])
  }

  /** Each field shares no bit with the fields listed after it. */
  predicate Disjoint(fs: seq<Field>) {
    |fs| == 0 || (Bits(fs[0]) & LayoutBits(fs[1..]) == 0 && Disjoint(fs[1..]))
  }

  /** No two fields of the layout share a bit. */
  predicate PairwiseDisjoint(fs: seq<Field>) {
    forall i, j :: 0 <= i < j < |fs| ==> Bits(fs[i]) & Bits(fs[j]) == 0
  }

  /** Every field of a layout lies inside the layout's bits. */
  lemma {:induction false} InLayout(fs: seq<Field>, i: int)
    requires 0 <= i < |fs|
    ensures Bits(fs[i]) & !LayoutBits(fs) == 0
    decreases i
  {
    if i > 0 {
      InLayout(fs[1..], i - 1);
      assert fs[1..][i - 1] == fs[i];
    }
  }

  /** The field-by-field check `Disjoint` gives pairwise disjointness. */
  lemma {:induction false} DisjointPairwise(fs: seq<Field>)
    requires Disjoint(fs)
    ensures PairwiseDisjoint(fs)
    decreases |fs|
  {
    if |fs| > 0 {
      var rest := fs[1..];
      DisjointPairwise(rest);
      forall i, j | 0 <= i < j < |fs|
        ensures Bits(fs[i]) & Bits(fs[j]) == 0
      {
        if i == 0 {
          InLayout(rest, j - 1);
          assert rest[j - 1] == fs[j];
        } else {
          assert rest[i - 1] == fs[i] && rest[j - 1] == fs[j];
        }
      }
    }
  }

  // ---------------------------------------------------------------------------
  // The fields of the header

  /** VIP_SF_GEN, the only field of CSI_VI_INPUT_STREAM_CONTROL. */
  const VIP_SF_GEN := Field(0x1, 7)

  /** The fields of CSI_PIXEL_STREAM_A_CONTROL0. */
  const PPA_PAD_FRAME := Field(0x3, 28)
  const PPA_HEADER_EC_ENABLE := Field(0x1, 27)
  const PPA_PAD_SHORT_LINE := Field(0x3, 24)
  const PPA_EMBEDDED_DATA_OPTIONS := Field(0x3, 20)
  const PPA_OUTPUT_FORMAT_OPTIONS := Field(0xf, 16)
  const PPA_VIRTUAL_CHANNEL_ID := Field(0x3, 14)
  const PPA_DATA_TYPE := Field(0x3f, 8)
  const PPA_CRC_CHECK := Field(0x1, 7)
  const PPA_WORD_COUNT_SELECT := Field(0x1, 6)
  const PPA_DATA_IDENTIFIER := Field(0x1, 5)
  const PPA_PACKET_HEADER := Field(0x1, 4)
  const PPA_STREAM_SOURCE := Field(0x7, 0)

  const PIXEL_STREAM_CONTROL0: seq<Field> :=
    [PPA_PAD_FRAME, PPA_HEADER_EC_ENABLE, PPA_PAD_SHORT_LINE, PPA_EMBEDDED_DATA_OPTIONS,
     PPA_OUTPUT_FORMAT_OPTIONS, PPA_VIRTUAL_CHANNEL_ID, PPA_DATA_TYPE, PPA_CRC_CHECK,
     PPA_WORD_COUNT_SELECT, PPA_DATA_IDENTIFIER, PPA_PACKET_HEADER, PPA_STREAM_SOURCE]

  /** The fields of CSI_PIXEL_STREAM_PPA_COMMAND. */
  const PPA_START_MARKER_FRAME_MAX := Field(0xf, 12)
  const PPA_START_MARKER_FRAME_MIN := Field(0xf, 8)
  const PPA_VSYNC_START_MARKER := Field(0x1, 4)
  const PPA_SINGLE_SHOT := Field(0x1, 2)
  const PPA_ENABLE := Field(0x3, 0)

  const PPA_COMMAND: seq<Field> :=
    [PPA_START_MARKER_FRAME_MAX, PPA_START_MARKER_FRAME_MIN, PPA_VSYNC_START_MARKER,
     PPA_SINGLE_SHOT, PPA_ENABLE]

  /** The fields of CSI_PHY_CIL_COMMAND. */
  const B_PHY_CIL_ENABLE := Field(0x3, 16)
  const A_PHY_CIL_ENABLE := Field(0x3, 0)

  const PHY_CIL_COMMAND: seq<Field> := [B_PHY_CIL_ENABLE, A_PHY_CIL_ENABLE]

  /** The only fields of CSI_CILA_MIPI_CAL_CONFIG and CSI_CILB_MIPI_CAL_CONFIG. */
  const MIPI_CAL_TERMOSA := Field(0x1f, 0)
  const MIPI_CAL_TERMOSB := Field(0x1f, 0)

  /** The fields of CSI_DSI_MIPI_CAL_CONFIG. */
  const MIPI_CAL_HSPDOSD := Field(0x1f, 16)
  const MIPI_CAL_HSPUOSD := Field(0x1f, 8)

  const DSI_MIPI_CAL_CONFIG: seq<Field> := [MIPI_CAL_HSPDOSD, MIPI_CAL_HSPUOSD]

  /** The fields of CSI_MIPIBIAS_PAD_CONFIG. */
  const PAD_DRIV_DN_REF := Field(0x7, 16)
  const PAD_DRIV_UP_REF := Field(0x7, 8)

  const MIPIBIAS_PAD_CONFIG: seq<Field> := [PAD_DRIV_DN_REF, PAD_DRIV_UP_REF]

  /** The twelve fields of CSI_PIXEL_STREAM_A_CONTROL0 occupy bits 28-29, 27, 24-25, 20-21, 16-19, 14-15, 8-13, 7, 6, 5, 4 and 0-2. */
  lemma PixelStreamControl0Layout()
    ensures PairwiseDisjoint(PIXEL_STREAM_CONTROL0)
    ensures LayoutBits(PIXEL_STREAM_CONTROL0) == 0x3b3f_fff7
  {
    // The layout spelt out as literals, which the verifier can unfold field by field.
    assert PIXEL_STREAM_CONTROL0 ==
      [Field(0x3, 28), Field(0x1, 27), Field(0x3, 24), Field(0x3, 20), Field(0xf, 16),
       Field(0x3, 14), Field(0x3f, 8), Field(0x1, 7), Field(0x1, 6), Field(0x1, 5),
       Field(0x1, 4), Field(0x7, 0)];
    assert Disjoint(
      [Field(0x3, 28), Field(0x1, 27), Field(0x3, 24), Field(0x3, 20), Field(0xf, 16),
       Field(0x3, 14), Field(0x3f, 8), Field(0x1, 7), Field(0x1, 6), Field(0x1, 5),
       Field(0x1, 4), Field(0x7, 0)]);
    DisjointPairwise(PIXEL_STREAM_CONTROL0);
  }

  /** The five fields of CSI_PIXEL_STREAM_PPA_COMMAND occupy bits 12-15, 8-11, 4, 2 and 0-1. */
  lemma PpaCommandLayout()
    ensures PairwiseDisjoint(PPA_COMMAND)
    ensures LayoutBits(PPA_COMMAND) == 0xff17
  {
    // The layout spelt out as literals, which the verifier can unfold field by field.
    assert PPA_COMMAND ==
      [Field(0xf, 12), Field(0xf, 8), Field(0x1, 4), Field(0x1, 2), Field(0x3, 0)];
    assert Disjoint(
      [Field(0xf, 12), Field(0xf, 8), Field(0x1, 4), Field(0x1, 2), Field(0x3, 0)]);
    DisjointPairwise(PPA_COMMAND);
  }

  /** The CIL enables occupy bits 16-17 and 0-1. */
  lemma PhyCilCommandLayout()
    ensures PairwiseDisjoint(PHY_CIL_COMMAND) && LayoutBits(PHY_CIL_COMMAND) == 0x3_0003
  {
    // The layout spelt out as literals, which the verifier can unfold field by field.
    assert PHY_CIL_COMMAND ==
      [Field(0x3, 16), Field(0x3, 0)];
    assert Disjoint(
      [Field(0x3, 16), Field(0x3, 0)]);
    DisjointPairwise(PHY_CIL_COMMAND);
  }

  /** HSPDOSD and HSPUOSD occupy bits 16-20 and 8-12. */
  lemma DsiMipiCalConfigLayout()
    ensures PairwiseDisjoint(DSI_MIPI_CAL_CONFIG) && LayoutBits(DSI_MIPI_CAL_CONFIG) == 0x1f_1f00
  {
    // The layout spelt out as literals, which the verifier can unfold field by field.
    assert DSI_MIPI_CAL_CONFIG ==
      [Field(0x1f, 16), Field(0x1f, 8)];
    assert Disjoint(
      [Field(0x1f, 16), Field(0x1f, 8)]);
    DisjointPairwise(DSI_MIPI_CAL_CONFIG);
  }

  /** PAD_DRIV_DN_REF and PAD_DRIV_UP_REF occupy bits 16-18 and 8-10. */
  lemma MipibiasPadConfigLayout()
    ensures PairwiseDisjoint(MIPIBIAS_PAD_CONFIG) && LayoutBits(MIPIBIAS_PAD_CONFIG) == 0x7_0700
  {
    // The layout spelt out as literals, which the verifier can unfold field by field.
    assert MIPIBIAS_PAD_CONFIG ==
      [Field(0x7, 16), Field(0x7, 8)];
    assert Disjoint(
      [Field(0x7, 16), Field(0x7, 8)]);
    DisjointPairwise(MIPIBIAS_PAD_CONFIG);
  }

  /** Every encoder of CSI_PIXEL_STREAM_A_CONTROL0 keeps to its field: bits 28-29, 27, 24-25 and 20-21. */
  lemma Control0HighEncodersInPlace(x: bv32)
    ensures EncodesInPlace(PPA_PAD_FRAME, x) && EncodesInPlace(PPA_HEADER_EC_ENABLE, x)
    ensures EncodesInPlace(PPA_PAD_SHORT_LINE, x) && EncodesInPlace(PPA_EMBEDDED_DATA_OPTIONS, x)
  {
  }

  /** Bits 16-19, 14-15, 8-13 and 7. */
  lemma Control0MiddleEncodersInPlace(x: bv32)
    ensures EncodesInPlace(PPA_OUTPUT_FORMAT_OPTIONS, x) && EncodesInPlace(PPA_VIRTUAL_CHANNEL_ID, x)
    ensures EncodesInPlace(PPA_DATA_TYPE, x) && EncodesInPlace(PPA_CRC_CHECK, x)
  {
  }

  /** Bits 6, 5, 4 and 0-2. */
  lemma Control0LowEncodersInPlace(x: bv32)
    ensures EncodesInPlace(PPA_WORD_COUNT_SELECT, x) && EncodesInPlace(PPA_DATA_IDENTIFIER, x)
    ensures EncodesInPlace(PPA_PACKET_HEADER, x) && EncodesInPlace(PPA_STREAM_SOURCE, x)
  {
  }

  /** Every encoder of CSI_PIXEL_STREAM_PPA_COMMAND keeps to its field. */
  lemma PpaCommandEncodersInPlace(x: bv32)
    ensures EncodesInPlace(PPA_START_MARKER_FRAME_MAX, x) && EncodesInPlace(PPA_START_MARKER_FRAME_MIN, x)
    ensures EncodesInPlace(PPA_VSYNC_START_MARKER, x) && EncodesInPlace(PPA_SINGLE_SHOT, x)
    ensures EncodesInPlace(PPA_ENABLE, x)
  {
  }

  /** Every encoder of the two-field registers keeps to its field. */
  lemma PhyCilCommandEncodersInPlace(x: bv32)
    ensures EncodesInPlace(B_PHY_CIL_ENABLE, x) && EncodesInPlace(A_PHY_CIL_ENABLE, x)
  {
  }

  lemma DsiMipiCalConfigEncodersInPlace(x: bv32)
    ensures EncodesInPlace(MIPI_CAL_HSPDOSD, x) && EncodesInPlace(MIPI_CAL_HSPUOSD, x)
  {
  }

  lemma MipibiasPadConfigEncodersInPlace(x: bv32)
    ensures EncodesInPlace(PAD_DRIV_DN_REF, x) && EncodesInPlace(PAD_DRIV_UP_REF, x)
  {
  }

  /** The single-field registers. */
  lemma SingleFields(x: bv32)
    ensures Bits(VIP_SF_GEN) == 0x80 && EncodesInPlace(VIP_SF_GEN, x)
    ensures Bits(MIPI_CAL_TERMOSA) == 0x1f && EncodesInPlace(MIPI_CAL_TERMOSA, x)
    ensures Bits(MIPI_CAL_TERMOSB) == 0x1f && EncodesInPlace(MIPI_CAL_TERMOSB, x)
  {
  }

  // ---------------------------------------------------------------------------
  // Register values

  /** The field values of CSI_PIXEL_STREAM_A_CONTROL0, in layout order. */
  datatype PixelStreamControl0 = PixelStreamControl0(
    padFrame: bv32, headerEcEnable: bv32, padShortLine: bv32, embeddedDataOptions: bv32,
    outputFormatOptions: bv32, virtualChannelId: bv32, dataType: bv32, crcCheck: bv32,
    wordCountSelect: bv32, dataIdentifier: bv32, packetHeader: bv32, streamSource: bv32)

  predicate FitsControl0(c: PixelStreamControl0) {
    && Fits(PPA_PAD_FRAME, c.padFrame) && Fits(PPA_HEADER_EC_ENABLE, c.headerEcEnable)
    && Fits(PPA_PAD_SHORT_LINE, c.padShortLine) && Fits(PPA_EMBEDDED_DATA_OPTIONS, c.embeddedDataOptions)
    && Fits(PPA_OUTPUT_FORMAT_OPTIONS, c.outputFormatOptions) && Fits(PPA_VIRTUAL_CHANNEL_ID, c.virtualChannelId)
    && Fits(PPA_DATA_TYPE, c.dataType) && Fits(PPA_CRC_CHECK, c.crcCheck)
    && Fits(PPA_WORD_COUNT_SELECT, c.wordCountSelect) && Fits(PPA_DATA_IDENTIFIER, c.dataIdentifier)
    && Fits(PPA_PACKET_HEADER, c.packetHeader) && Fits(PPA_STREAM_SOURCE, c.streamSource)
  }

  /** The register word a driver builds by OR-ing the twelve encoder macros. */
  function EncodeControl0(c: PixelStreamControl0): (w: bv32)
    ensures w & !LayoutBits(PIXEL_STREAM_CONTROL0) == 0
  {
    PixelStreamControl0Layout();
    Encode(PPA_PAD_FRAME, c.padFrame) | Encode(PPA_HEADER_EC_ENABLE, c.headerEcEnable)
    | Encode(PPA_PAD_SHORT_LINE, c.padShortLine) | Encode(PPA_EMBEDDED_DATA_OPTIONS, c.embeddedDataOptions)
    | Encode(PPA_OUTPUT_FORMAT_OPTIONS, c.outputFormatOptions) | Encode(PPA_VIRTUAL_CHANNEL_ID, c.virtualChannelId)
    | Encode(PPA_DATA_TYPE, c.dataType) | Encode(PPA_CRC_CHECK, c.crcCheck)
    | Encode(PPA_WORD_COUNT_SELECT, c.wordCountSelect) | Encode(PPA_DATA_IDENTIFIER, c.dataIdentifier)
    | Encode(PPA_PACKET_HEADER, c.packetHeader) | Encode(PPA_STREAM_SOURCE, c.streamSource)
  }

  function DecodeControl0(w: bv32): (c: PixelStreamControl0)
    ensures FitsControl0(c)
  {
    PixelStreamControl0(
      Decode(PPA_PAD_FRAME, w), Decode(PPA_HEADER_EC_ENABLE, w),
      Decode(PPA_PAD_SHORT_LINE, w), Decode(PPA_EMBEDDED_DATA_OPTIONS, w),
      Decode(PPA_OUTPUT_FORMAT_OPTIONS, w), Decode(PPA_VIRTUAL_CHANNEL_ID, w),
      Decode(PPA_DATA_TYPE, w), Decode(PPA_CRC_CHECK, w),
      Decode(PPA_WORD_COUNT_SELECT, w), Decode(PPA_DATA_IDENTIFIER, w),
      Decode(PPA_PACKET_HEADER, w), Decode(PPA_STREAM_SOURCE, w))
  }

  /** OR-composition loses nothing: every field that fits is read back as written. */
  lemma Control0RoundTrip(c: PixelStreamControl0)
    requires FitsControl0(c)
    ensures DecodeControl0(EncodeControl0(c)) == c
  {
  }

  /** Re-encoding the fields read out of a word rebuilds exactly the word's defined bits. */
  lemma Control0WordRoundTrip(w: bv32)
    ensures EncodeControl0(DecodeControl0(w)) == w & LayoutBits(PIXEL_STREAM_CONTROL0)
  {
    PixelStreamControl0Layout();
  }

  /** The field values of CSI_PIXEL_STREAM_PPA_COMMAND, in layout order. */
  datatype PpaCommand = PpaCommand(
    startMarkerFrameMax: bv32, startMarkerFrameMin: bv32, vsyncStartMarker: bv32,
    singleShot: bv32, enable: bv32)

  predicate FitsPpaCommand(c: PpaCommand) {
    && Fits(PPA_START_MARKER_FRAME_MAX, c.startMarkerFrameMax)
    && Fits(PPA_START_MARKER_FRAME_MIN, c.startMarkerFrameMin)
    && Fits(PPA_VSYNC_START_MARKER, c.vsyncStartMarker)
    && Fits(PPA_SINGLE_SHOT, c.singleShot) && Fits(PPA_ENABLE, c.enable)
  }

  function EncodePpaCommand(c: PpaCommand): (w: bv32)
    ensures w & !LayoutBits(PPA_COMMAND) == 0
  {
    PpaCommandLayout();
    Encode(PPA_START_MARKER_FRAME_MAX, c.startMarkerFrameMax)
    | Encode(PPA_START_MARKER_FRAME_MIN, c.startMarkerFrameMin)
    | Encode(PPA_VSYNC_START_MARKER, c.vsyncStartMarker)
    | Encode(PPA_SINGLE_SHOT, c.singleShot) | Encode(PPA_ENABLE, c.enable)
  }

  function DecodePpaCommand(w: bv32): (c: PpaCommand)
    ensures FitsPpaCommand(c)
  {
    PpaCommand(
      Decode(PPA_START_MARKER_FRAME_MAX, w), Decode(PPA_START_MARKER_FRAME_MIN, w),
      Decode(PPA_VSYNC_START_MARKER, w), Decode(PPA_SINGLE_SHOT, w), Decode(PPA_ENABLE, w))
  }

  lemma PpaCommandRoundTrip(c: PpaCommand)
    requires FitsPpaCommand(c)
    ensures DecodePpaCommand(EncodePpaCommand(c)) == c
  {
  }

  lemma PpaCommandWordRoundTrip(w: bv32)
    ensures EncodePpaCommand(DecodePpaCommand(w)) == w & LayoutBits(PPA_COMMAND)
  {
    PpaCommandLayout();
  }

  /**
   * A register with two fields, `fs[0]` above `fs[1]`: CSI_PHY_CIL_COMMAND,
   * CSI_DSI_MIPI_CAL_CONFIG and CSI_MIPIBIAS_PAD_CONFIG.
   */
  function EncodePair(fs: seq<Field>, high: bv32, low: bv32): bv32
    requires |fs| == 2
  {
    Encode(fs[0], high) | Encode(fs[1], low)
  }

  function DecodePair(fs: seq<Field>, w: bv32): (bv32, bv32)
    requires |fs| == 2
  {
    (Decode(fs[0], w), Decode(fs[1], w))
  }

  /** Both fields of a two-field register read back as written, and a word is rebuilt from its two fields. */
  lemma PhyCilCommandRoundTrip(high: bv32, low: bv32)
    requires Fits(B_PHY_CIL_ENABLE, high) && Fits(A_PHY_CIL_ENABLE, low)
    ensures DecodePair(PHY_CIL_COMMAND, EncodePair(PHY_CIL_COMMAND, high, low)) == (high, low)
  {
  }

  lemma PhyCilCommandWordRoundTrip(w: bv32)
    ensures EncodePair(PHY_CIL_COMMAND, Decode(B_PHY_CIL_ENABLE, w), Decode(A_PHY_CIL_ENABLE, w)) == w & LayoutBits(PHY_CIL_COMMAND)
  {
    PhyCilCommandLayout();
  }

  lemma DsiMipiCalConfigRoundTrip(high: bv32, low: bv32)
    requires Fits(MIPI_CAL_HSPDOSD, high) && Fits(MIPI_CAL_HSPUOSD, low)
    ensures DecodePair(DSI_MIPI_CAL_CONFIG, EncodePair(DSI_MIPI_CAL_CONFIG, high, low)) == (high, low)
  {
  }

  lemma DsiMipiCalConfigWordRoundTrip(w: bv32)
    ensures EncodePair(DSI_MIPI_CAL_CONFIG, Decode(MIPI_CAL_HSPDOSD, w), Decode(MIPI_CAL_HSPUOSD, w)) == w & LayoutBits(DSI_MIPI_CAL_CONFIG)
  {
    DsiMipiCalConfigLayout();
  }

  lemma MipibiasPadConfigRoundTrip(high: bv32, low: bv32)
    requires Fits(PAD_DRIV_DN_REF, high) && Fits(PAD_DRIV_UP_REF, low)
    ensures DecodePair(MIPIBIAS_PAD_CONFIG, EncodePair(MIPIBIAS_PAD_CONFIG, high, low)) == (high, low)
  {
  }

  lemma MipibiasPadConfigWordRoundTrip(w: bv32)
    ensures EncodePair(MIPIBIAS_PAD_CONFIG, Decode(PAD_DRIV_DN_REF, w), Decode(PAD_DRIV_UP_REF, w)) == w & LayoutBits(MIPIBIAS_PAD_CONFIG)
  {
    MipibiasPadConfigLayout();
  }

  // ---------------------------------------------------------------------------
  // Named field values

  /** The values of the OUTPUT_FORMAT_OPTIONS field. */
  datatype OutputFormat = Arbitrary | Pixel | PixelRep | Store

  function OutputFormatCode(o: OutputFormat): (c: bv32)
    ensures Fits(PPA_OUTPUT_FORMAT_OPTIONS, c)
    ensures c < 4
  {
    match o
    case Arbitrary => 0
    case Pixel => 1
    case PixelRep => 2
    case Store => 3
  }

  /** The values of the DATA_TYPE field: MIPI CSI-2 data type identifiers. */
  datatype DataType =
    | Yuv420_8 | Yuv420_10 | LedYuv420_8 | Yuv420Csps_8 | Yuv420Csps_10 | Yuv422_8 | Yuv422_10
    | Rgb444 | Rgb555 | Rgb565 | Rgb666 | Rgb888
    | Raw6 | Raw7 | Raw8 | Raw10 | Raw12 | Raw14

  function DataTypeCode(d: DataType): (c: bv32)
    ensures Fits(PPA_DATA_TYPE, c)
    ensures 24 <= c <= 45
  {
    match d
    case Yuv420_8 => 24
    case Yuv420_10 => 25
    case LedYuv420_8 => 26
    case Yuv420Csps_8 => 27
    case Yuv420Csps_10 => 28
    case Yuv422_8 => 29
    case Yuv422_10 => 30
    case Rgb444 => 32
    case Rgb555 => 33
    case Rgb565 => 34
    case Rgb666 => 35
    case Rgb888 => 36
    case Raw6 => 40
    case Raw7 => 41
    case Raw8 => 42
    case Raw10 => 43
    case Raw12 => 44
    case Raw14 => 45
  }

  /** The values of the STREAM_SOURCE field. */
  datatype StreamSource = CsiA | CsiB | ViPort | Host

  function StreamSourceCode(s: StreamSource): (c: bv32)
    ensures Fits(PPA_STREAM_SOURCE, c)
  {
    match s
    case CsiA => 0
    case CsiB => 1
    case ViPort => 6
    case Host => 7
  }

  /** The values of the PPA ENABLE field: CSI_ENABLE, CSI_DISABLE and CSI_RST. */
  datatype PpaControl = Enable | Disable | Reset

  function PpaControlCode(p: PpaControl): (c: bv32)
    ensures Fits(PPA_ENABLE, c)
    ensures c != 0
  {
    match p
    case Enable => 1
    case Disable => 2
    case Reset => 3
  }

  /** The named value a field code stands for, if any. */
  function DataTypeOf(c: bv32): (d: Option<DataType>)
    ensures d.Some? ==> DataTypeCode(d.value) == c
  {
    if c == 24 then Some(Yuv420_8)
    else if c == 25 then Some(Yuv420_10)
    else if c == 26 then Some(LedYuv420_8)
    else if c == 27 then Some(Yuv420Csps_8)
    else if c == 28 then Some(Yuv420Csps_10)
    else if c == 29 then Some(Yuv422_8)
    else if c == 30 then Some(Yuv422_10)
    else if c == 32 then Some(Rgb444)
    else if c == 33 then Some(Rgb555)
    else if c == 34 then Some(Rgb565)
    else if c == 35 then Some(Rgb666)
    else if c == 36 then Some(Rgb888)
    else if c == 40 then Some(Raw6)
    else if c == 41 then Some(Raw7)
    else if c == 42 then Some(Raw8)
    else if c == 43 then Some(Raw10)
    else if c == 44 then Some(Raw12)
    else if c == 45 then Some(Raw14)
    else None
  }

  /** Every data type is recovered from its code. */
  lemma DataTypeCodeInverse(d: DataType)
    ensures DataTypeOf(DataTypeCode(d)) == Some(d)
  {
  }

  /** So distinct data types have distinct codes, and each survives the DATA_TYPE encoder. */
  lemma DataTypeCodeLossless(d1: DataType, d2: DataType)
    ensures DataTypeCode(d1) == DataTypeCode(d2) <==> d1 == d2
    ensures Decode(PPA_DATA_TYPE, Encode(PPA_DATA_TYPE, DataTypeCode(d1))) == DataTypeCode(d1)
  {
    DataTypeCodeInverse(d1);
    DataTypeCodeInverse(d2);
  }

  /** Distinct output formats, stream sources and PPA controls have distinct codes, and each survives its field's encoder. */
  lemma OtherCodesLossless(o1: OutputFormat, o2: OutputFormat, s1: StreamSource, s2: StreamSource,
                           p1: PpaControl, p2: PpaControl)
    ensures OutputFormatCode(o1) == OutputFormatCode(o2) <==> o1 == o2
    ensures StreamSourceCode(s1) == StreamSourceCode(s2) <==> s1 == s2
    ensures PpaControlCode(p1) == PpaControlCode(p2) <==> p1 == p2
    ensures Decode(PPA_OUTPUT_FORMAT_OPTIONS, Encode(PPA_OUTPUT_FORMAT_OPTIONS, OutputFormatCode(o1))) == OutputFormatCode(o1)
    ensures Decode(PPA_STREAM_SOURCE, Encode(PPA_STREAM_SOURCE, StreamSourceCode(s1))) == StreamSourceCode(s1)
    ensures Decode(PPA_ENABLE, Encode(PPA_ENABLE, PpaControlCode(p1))) == PpaControlCode(p1)
  {
  }
}
