/** The raw-audio format of spa/lib/audio-raw.c: its constant property and
    range tables, the defaults `spa_audio_raw_format_init` fills in, and the
    dispatch of `spa_audio_raw_format_parse`. The property library that
    parse calls (get_prop and spa_props_copy) is not part of this model: its
    answers are parameters. */
module AudioRaw {

  type uint32 = x: nat | x < 0x1_0000_0000

  const UINT32_MAX: uint32 := 0xFFFF_FFFF

  /** The sample formats of the format enumeration; `Unknown` and `Encoded`
      are members of the enumeration that the format range does not offer. */
  datatype AudioFormat =
    | Unknown | Encoded
    | S8 | U8
    | S16LE | S16BE | U16LE | U16BE
    | S24_32LE | S24_32BE | U24_32LE | U24_32BE
    | S32LE | S32BE | U32LE | U32BE
    | S24LE | S24BE | U24LE | U24BE
    | S20LE | S20BE | U20LE | U20BE
    | S18LE | S18BE | U18LE | U18BE
    | F32LE | F32BE | F64LE | F64BE

  /** Byte order of the host, which decides what the native-endian alias
      S16 stands for. */
  datatype ByteOrder = LittleEndian | BigEndian

  const HostByteOrder: ByteOrder := LittleEndian

  /** S16 in the host's byte order. */
  function NativeS16(): AudioFormat {
    if HostByteOrder == BigEndian then S16BE else S16LE
  }

  datatype Layout = Interleaved | NonInterleaved

  /** The single named sample flag; a flags word is a set of them, and the
      empty set is "no flags". */
  datatype AudioFlag = Unpositioned

  /** The raw audio description. */
  datatype RawInfo = RawInfo(
    format: AudioFormat,
    flags: set<AudioFlag>,
    layout: Layout,
    rate: uint32,
    channels: uint32,
    channelMask: bv32)

  /** The fields of a raw format record a property can refer to; `WholeInfo`
      is the info record itself. */
  datatype Field = FormatField | FlagsField | LayoutField | RateField | ChannelsField | ChannelMaskField | WholeInfo

  /** A value a property or a range entry refers to. */
  datatype Value =
    | FormatValue(format: AudioFormat)
    | FlagsValue(flags: set<AudioFlag>)
    | LayoutValue(layout: Layout)
    | Number(n: uint32)
    | Mask(bits: bv32)
    | InfoValue(info: RawInfo)

  /** The value of field f in the info record. */
  function FieldValue(info: RawInfo, f: Field): (v: Value)
    ensures f == WholeInfo <==> v.InfoValue?
  {
    match f
    case FormatField => FormatValue(info.format)
    case FlagsField => FlagsValue(info.flags)
    case LayoutField => LayoutValue(info.layout)
    case RateField => Number(info.rate)
    case ChannelsField => Number(info.channels)
    case ChannelMaskField => Mask(info.channelMask)
    case WholeInfo => InfoValue(info)
  }

  datatype PropId = AudioFormatId | AudioFlagsId | AudioLayoutId | AudioRateId | AudioChannelsId | AudioChannelMaskId | AudioRawInfoId

  datatype PropType = Uint32Type | BitmaskType | PtrType | OtherType(code: nat)

  datatype RangeType = NoRange | MinMaxRange | StepRange | EnumRange | FlagsRange

  /** One entry of a range table: name, description, size of the value and
      the value. */
  datatype RangeInfo = RangeInfo(name: string, description: string, size: nat, value: Value)

  /** Where a property's default value lives: nowhere, or a field of the
      default info record. */
  datatype Default = NoDefault | DefaultOf(field: Field)

  /** One entry of the property table: id, name, description, whether it
      is read-write, type, maximum size, default size and default, range
      type and range entries, the field the property is stored in and the
      bits of `unset_mask` that say it is not set. */
  datatype PropInfo = PropInfo(
    id: PropId,
    name: string,
    description: string,
    readWrite: bool,
    typ: PropType,
    maxSize: nat,
    defaultSize: nat,
    default: Default,
    rangeType: RangeType,
    ranges: seq<RangeInfo>,
    field: Field,
    unsetBits: bv32)

  const SizeOfUint32: nat := 4

  /** Size of the whole info record: six 32-bit words. */
  const SizeOfRawInfo: nat := 24

  // ---------------------------------------------------------------- tables

  /** The defaults: native S16, no flags, interleaved, 44100 Hz, stereo,
      no channel mask. */
  function DefaultInfo(): (d: RawInfo)
    ensures d.format == NativeS16() && d.flags == {} && d.layout == Interleaved
    ensures d.rate == 44100 && d.channels == 2 && d.channelMask == 0
  {
    RawInfo(NativeS16(), {}, Interleaved, 44100, 2, 0)
  }

  /** Entry i of the format values. */
  function FormatAt(i: nat): AudioFormat
    requires i < 30
  {
    match i
    case 0 => S8
    case 1 => U8
    case 2 => S16LE
    case 3 => S16BE
    case 4 => U16LE
    case 5 => U16BE
    case 6 => S24_32LE
    case 7 => S24_32BE
    case 8 => U24_32LE
    case 9 => U24_32BE
    case 10 => S32LE
    case 11 => S32BE
    case 12 => U32LE
    case 13 => U32BE
    case 14 => S24LE
    case 15 => S24BE
    case 16 => U24LE
    case 17 => U24BE
    case 18 => S20LE
    case 19 => S20BE
    case 20 => U20LE
    case 21 => U20BE
    case 22 => S18LE
    case 23 => S18BE
    case 24 => U18LE
    case 25 => U18BE
    case 26 => F32LE
    case 27 => F32BE
    case 28 => F64LE
    case _ => F64BE
  }

  /** The formats the format range offers, in table order. */
  function FormatValues(): (r: seq<AudioFormat>)
    ensures |r| == 30
  {
    seq(30, i requires 0 <= i < 30 => FormatAt(i))
  }

  /** The name of each format, as the format enumeration spells it. */
  function FormatName(f: AudioFormat): string {
    match f
    case Unknown => "UNKNOWN"   case Encoded => "ENCODED"
    case S8 => "S8"             case U8 => "U8"
    case S16LE => "S16LE"       case S16BE => "S16BE"
    case U16LE => "U16LE"       case U16BE => "U16BE"
    case S24_32LE => "S24_32LE" case S24_32BE => "S24_32BE"
    case U24_32LE => "U24_32LE" case U24_32BE => "U24_32BE"
    case S32LE => "S32LE"       case S32BE => "S32BE"
    case U32LE => "U32LE"       case U32BE => "U32BE"
    case S24LE => "S24LE"       case S24BE => "S24BE"
    case U24LE => "U24LE"       case U24BE => "U24BE"
    case S20LE => "S20LE"       case S20BE => "S20BE"
    case U20LE => "U20LE"       case U20BE => "U20BE"
    case S18LE => "S18LE"       case S18BE => "S18BE"
    case U18LE => "U18LE"       case U18BE => "U18BE"
    case F32LE => "F32LE"       case F32BE => "F32BE"
    case F64LE => "F64LE"       case F64BE => "F64BE"
  }

  /** The name (and description) of entry i of the format range. */
  function FormatRangeName(i: nat): string
    requires i < 30
  {
    match i
    case 0 => "S8"
    case 1 => "U8"
    case 2 => "S16LE"
    case 3 => "S16BE"
    case 4 => "U16LE"
    case 5 => "U16BE"
    case 6 => "S24_32LE"
    case 7 => "S24_32BE"
    case 8 => "U24_32LE"
    case 9 => "U24_32BE"
    case 10 => "S32LE"
    case 11 => "S32BE"
    case 12 => "U32LE"
    case 13 => "U32BE"
    case 14 => "S24LE"
    case 15 => "S24BE"
    case 16 => "U24LE"
    case 17 => "U24BE"
    case 18 => "S20LE"
    case 19 => "S20BE"
    case 20 => "U20LE"
    case 21 => "U20BE"
    case 22 => "S18LE"
    case 23 => "S18BE"
    case 24 => "U18LE"
    case 25 => "U18BE"
    case 26 => "F32LE"
    case 27 => "F32BE"
    case 28 => "F64LE"
    case _ => "F64BE"
  }

  /** Entry i of the format range names format value i. */
  function FormatFormatRange(): (r: seq<RangeInfo>)
    ensures |r| == |FormatValues()|
  {
    seq(30, i requires 0 <= i < 30 =>
      RangeInfo(FormatRangeName(i), FormatRangeName(i), SizeOfUint32, FormatValue(FormatValues()[i])))
  }

  function LayoutsRange(): (r: seq<RangeInfo>)
    ensures |r| == 2
  {
    [ RangeInfo("interleaved", "Interleaved samples", SizeOfUint32, LayoutValue(Interleaved)),
      RangeInfo("non-interleaved", "Non-interleaved samples", SizeOfUint32, LayoutValue(NonInterleaved)) ]
  }

  function FlagsRangeTable(): (r: seq<RangeInfo>)
    ensures |r| == 2
  {
    [ RangeInfo("none", "No flags", SizeOfUint32, FlagsValue({})),
      RangeInfo("unpositioned", "Unpositioned channels", SizeOfUint32, FlagsValue({Unpositioned})) ]
  }

  /** The minimum and maximum of rates and channel counts. */
  function Uint32Range(): (r: seq<RangeInfo>)
    ensures |r| == 2
  {
    [ RangeInfo("min", "Minimum value", 4, Number(1)),
      RangeInfo("max", "Maximum value", 4, Number(UINT32_MAX)) ]
  }

  /** A read-write 32-bit property stored in field f, whose default is f of
      the default info. */
  function FieldProp(id: PropId, name: string, description: string, typ: PropType,
                     rangeType: RangeType, ranges: seq<RangeInfo>, f: Field, bit: bv32): PropInfo
  {
    PropInfo(id, name, description, true, typ, SizeOfUint32, SizeOfUint32, DefaultOf(f), rangeType, ranges, f, bit)
  }

  function RawFormatPropInfo(): (r: seq<PropInfo>)
    ensures |r| == 7
  {
    [ FieldProp(AudioFormatId, "format", "The media format", Uint32Type,
                EnumRange, FormatFormatRange(), FormatField, 1 << 0),
      FieldProp(AudioFlagsId, "flags", "Sample Flags", Uint32Type,
                FlagsRange, FlagsRangeTable(), FlagsField, 1 << 1),
      FieldProp(AudioLayoutId, "layout", "Sample Layout", Uint32Type,
                EnumRange, LayoutsRange(), LayoutField, 1 << 2),
      FieldProp(AudioRateId, "rate", "Audio sample rate", Uint32Type,
                MinMaxRange, Uint32Range(), RateField, 1 << 3),
      FieldProp(AudioChannelsId, "channels", "Audio channels", Uint32Type,
                MinMaxRange, Uint32Range(), ChannelsField, 1 << 4),
      FieldProp(AudioChannelMaskId, "channel-mask", "Audio channel mask", BitmaskType,
                NoRange, [], ChannelMaskField, 1 << 5),
      PropInfo(AudioRawInfoId, "info", "the SpaAudioRawInfo structure", true, PtrType,
               SizeOfRawInfo, 0, NoDefault, NoRange, [], WholeInfo, !0) ]
  }

  /** The `unset_mask` init leaves: the bits of the format, layout, rate and
      channels properties (bits 0, 2, 3 and 4) are set; those of the flags
      and channel-mask properties (bits 1 and 5) and all higher bits are
      clear. */
  function InitUnsetMask(): (r: bv32)
    ensures r & 1 != 0 && r & 4 != 0 && r & 8 != 0 && r & 16 != 0
    ensures r & 2 == 0 && r & 32 == 0 && r >> 6 == 0
  {
    (1 << 0) | (1 << 2) | (1 << 3) | (1 << 4)
  }

  // ---------------------------------------------------------------- table properties

  /** The position of each offered format in the format values, -1 for
      the two formats not offered. */
  function FormatIndex(f: AudioFormat): int {
    match f
    case Unknown => -1    case Encoded => -1
    case S8 => 0          case U8 => 1
    case S16LE => 2       case S16BE => 3       case U16LE => 4       case U16BE => 5
    case S24_32LE => 6    case S24_32BE => 7    case U24_32LE => 8    case U24_32BE => 9
    case S32LE => 10      case S32BE => 11      case U32LE => 12      case U32BE => 13
    case S24LE => 14      case S24BE => 15      case U24LE => 16      case U24BE => 17
    case S20LE => 18      case S20BE => 19      case U20LE => 20      case U20BE => 21
    case S18LE => 22      case S18BE => 23      case U18LE => 24      case U18BE => 25
    case F32LE => 26      case F32BE => 27      case F64LE => 28      case F64BE => 29
  }

  lemma FormatIndexInverts()
    ensures forall i :: 0 <= i < |FormatValues()| ==> FormatIndex(FormatValues()[i]) == i
    ensures forall f: AudioFormat :: f != Unknown && f != Encoded ==>
      0 <= FormatIndex(f) < |FormatValues()| && FormatValues()[FormatIndex(f)] == f
  {
    forall i | 0 <= i < 30 ensures FormatIndex(FormatAt(i)) == i { }
    forall f: AudioFormat | f != Unknown && f != Encoded
      ensures 0 <= FormatIndex(f) < 30 && FormatAt(FormatIndex(f)) == f { }
  }

  /** The format range offers every format of the enumeration except
      UNKNOWN and ENCODED, each exactly once. */
  lemma FormatValuesComplete()
    ensures forall f: AudioFormat :: f != Unknown && f != Encoded <==> f in FormatValues()
    ensures forall i, j :: 0 <= i < j < |FormatValues()| ==> FormatValues()[i] != FormatValues()[j]
  {
    FormatIndexInverts();
    var v := FormatValues();
    forall f | f in v ensures f != Unknown && f != Encoded {
      var i :| 0 <= i < |v| && v[i] == f;
      assert FormatIndex(f) == i;
    }
    forall f: AudioFormat | f != Unknown && f != Encoded ensures f in v {
      assert v[FormatIndex(f)] == f;
    }
    forall i, j | 0 <= i < j < |v| ensures v[i] != v[j] {
      assert FormatIndex(v[i]) == i && FormatIndex(v[j]) == j;
    }
  }

  /** Entry i of the format range is format value i, under that format's
      name. */
  lemma FormatRangeMatchesValues()
    ensures forall i :: 0 <= i < |FormatFormatRange()| ==>
      var e := FormatFormatRange()[i];
      && e.value == FormatValue(FormatValues()[i])
      && e.name == e.description == FormatName(FormatValues()[i])
      && e.size == SizeOfUint32
  {
    forall i | 0 <= i < 30 ensures FormatRangeName(i) == FormatName(FormatAt(i)) { }
  }

  /** The six field properties of the table each own one distinct bit of
      `unset_mask`, bit i for entry i; the RAW_INFO entry owns all of them. */
  lemma UnsetBitsDistinct()
    ensures forall i :: 0 <= i < 6 ==> RawFormatPropInfo()[i].unsetBits == (1 as bv32) << i
    ensures forall i, j :: 0 <= i < j < 6 ==>
      RawFormatPropInfo()[i].unsetBits & RawFormatPropInfo()[j].unsetBits == 0
    ensures forall i :: 0 <= i < 7 ==>
      RawFormatPropInfo()[6].unsetBits & RawFormatPropInfo()[i].unsetBits == RawFormatPropInfo()[i].unsetBits
    ensures RawFormatPropInfo()[6].id == AudioRawInfoId && RawFormatPropInfo()[6].unsetBits == 0xFFFF_FFFF
  {
  }

  /** After init, the format, layout, rate and channels properties count
      as unset and the flags and channel-mask properties as set. */
  lemma InitUnsetFields()
    ensures var t := RawFormatPropInfo();
      && InitUnsetMask() == t[0].unsetBits | t[2].unsetBits | t[3].unsetBits | t[4].unsetBits
      && InitUnsetMask() & t[1].unsetBits == 0
      && InitUnsetMask() & t[5].unsetBits == 0
      && t[0].field == FormatField && t[1].field == FlagsField && t[2].field == LayoutField
      && t[3].field == RateField && t[4].field == ChannelsField && t[5].field == ChannelMaskField
  {
  }

  /** Every field property takes its default from the field it is stored
      in, and every default lies in the property's range: one of the
      entries of an enumeration or flags range, between the minimum and
      the maximum of a min/max range. */
  lemma DefaultsInRange()
    ensures forall i :: 0 <= i < 6 ==> RawFormatPropInfo()[i].default == DefaultOf(RawFormatPropInfo()[i].field)
    ensures forall i :: 0 <= i < 6 && RawFormatPropInfo()[i].rangeType in {EnumRange, FlagsRange} ==>
      exists k :: 0 <= k < |RawFormatPropInfo()[i].ranges| &&
        RawFormatPropInfo()[i].ranges[k].value == FieldValue(DefaultInfo(), RawFormatPropInfo()[i].field)
    ensures forall i :: 0 <= i < 6 && RawFormatPropInfo()[i].rangeType == MinMaxRange ==>
      var p := RawFormatPropInfo()[i];
      var v := FieldValue(DefaultInfo(), p.field);
      && v.Number? && |p.ranges| == 2 && p.ranges[0].value.Number? && p.ranges[1].value.Number?
      && p.ranges[0].value.n <= v.n <= p.ranges[1].value.n
  {
    var t := RawFormatPropInfo();
    assert t[0].ranges[2].value == FieldValue(DefaultInfo(), FormatField);
    assert t[1].ranges[0].value == FieldValue(DefaultInfo(), FlagsField);
    assert t[2].ranges[0].value == FieldValue(DefaultInfo(), LayoutField);
  }

  /** Rate and channels are bounded by the same min/max range, from 1 to
      the largest 32-bit value. */
  lemma RateAndChannelsRange()
    ensures var t := RawFormatPropInfo();
      && t[3].id == AudioRateId && t[4].id == AudioChannelsId
      && t[3].rangeType == MinMaxRange && t[4].rangeType == MinMaxRange
      && t[3].ranges == t[4].ranges == Uint32Range()
      && Uint32Range()[0].name == "min" && Uint32Range()[0].value == Number(1)
      && Uint32Range()[1].name == "max" && Uint32Range()[1].value == Number(UINT32_MAX)
      && UINT32_MAX as int == 0x1_0000_0000 - 1
  {
  }

  // ---------------------------------------------------------------- records

  datatype MediaType = MediaAudio | MediaVideo | MediaOther(code: nat)

  datatype MediaSubtype = SubtypeRaw | SubtypeOther(code: nat)

  /** Which get_prop/set_prop pair a property set uses: the generic ones of
      the property library, or some other implementation. */
  datatype Accessors = GenericAccessors | OtherAccessors(code: nat)

  /** A property set: its table and its accessors. */
  datatype Props = Props(nPropInfo: nat, propInfo: seq<PropInfo>, accessors: Accessors)

  datatype SpaResult = ResultOk | InvalidMediaType | OtherResult(code: int)

  /** The value get_prop hands back. The value of a PTR-typed property is
      the info record it points to. */
  datatype PropValue = PropValue(typ: PropType, size: nat, info: RawInfo)

  /** What get_prop returns: its result code and the value it filled in. */
  datatype GetPropReply = GetPropReply(res: int, value: PropValue)

  /** What spa_props_copy does to a raw format: its result, and the info
      and unset mask it leaves. */
  datatype PropsCopy = PropsCopy(res: SpaResult, info: RawInfo, unsetMask: bv32)

  /** A format: its media type and subtype, and its properties. */
  class Format {
    var mediaType: MediaType
    var mediaSubtype: MediaSubtype
    var props: Props

    constructor (mediaType: MediaType, mediaSubtype: MediaSubtype, props: Props)
      ensures this.mediaType == mediaType && this.mediaSubtype == mediaSubtype && this.props == props
    {
      this.mediaType := mediaType;
      this.mediaSubtype := mediaSubtype;
      this.props := props;
    }
  }

  /** A raw audio format: a format, which it begins with, the mask of its
      properties that are not set, and the info. */
  class RawFormat {
    const format: Format
    var unsetMask: bv32
    var info: RawInfo

    constructor (format: Format, unsetMask: bv32, info: RawInfo)
      ensures this.format == format && this.unsetMask == unsetMask && this.info == info
    {
      this.format := format;
      this.unsetMask := unsetMask;
      this.info := info;
    }

    /** spa_audio_raw_format_init: an audio/raw format with the raw format
        property table and the generic accessors, the defaults, and format,
        layout, rate and channels marked unset. */
    method Init() returns (res: SpaResult)
      modifies this, format
      ensures res == ResultOk
      ensures format.mediaType == MediaAudio && format.mediaSubtype == SubtypeRaw
      ensures format.props == Props(|RawFormatPropInfo()|, RawFormatPropInfo(), GenericAccessors)
      ensures format.props.nPropInfo == 7
      ensures unsetMask == InitUnsetMask() && info == DefaultInfo()
    {
      format.mediaType := MediaAudio;
      format.mediaSubtype := SubtypeRaw;
      format.props := Props(|RawFormatPropInfo()|, RawFormatPropInfo(), GenericAccessors);
      unsetMask := InitUnsetMask();
      info := DefaultInfo();
      res := ResultOk;
    }

    /** spa_audio_raw_format_parse from `src` into this raw format. `raw`
        is what get_prop answers for the RAW_INFO property of `src`, and
        `copy` what spa_props_copy makes of a raw format, given the info and
        unset mask it starts from. */
    method Parse(src: Format, raw: GetPropReply, copy: (RawInfo, bv32) -> PropsCopy) returns (res: SpaResult)
      modifies this, format
      ensures unchanged(src)
      // parsing a raw format's own format changes nothing
      ensures src == format ==> res == ResultOk && unchanged(this) && unchanged(format)
      // anything but audio/raw is refused, and nothing changes
      ensures src != format && (src.mediaType != MediaAudio || src.mediaSubtype != SubtypeRaw) ==>
        res == InvalidMediaType && unchanged(this) && unchanged(format)
      // otherwise the record is initialised first
      ensures src != format && src.mediaType == MediaAudio && src.mediaSubtype == SubtypeRaw ==>
        && format.mediaType == MediaAudio && format.mediaSubtype == SubtypeRaw
        && format.props == Props(|RawFormatPropInfo()|, RawFormatPropInfo(), GenericAccessors)
        && if raw.res >= 0 && raw.value.typ == PtrType && raw.value.size == SizeOfRawInfo then
             // a well-formed RAW_INFO value is taken whole
             res == ResultOk && info == raw.value.info && unsetMask == InitUnsetMask()
           else
             // anything else falls back to copying the properties into the defaults
             var c := copy(DefaultInfo(), InitUnsetMask());
             res == c.res && info == c.info && unsetMask == c.unsetMask
    {
      if src == format {
        return ResultOk;
      }
      if src.mediaType != MediaAudio || src.mediaSubtype != SubtypeRaw {
        return InvalidMediaType;
      }
      var _ := Init();
      if raw.res < 0 || raw.value.typ != PtrType || raw.value.size != SizeOfRawInfo {
        var c := copy(info, unsetMask);
        info, unsetMask := c.info, c.unsetMask;
        return c.res;
      }
      info := raw.value.info;
      return ResultOk;
    }
  }
}
