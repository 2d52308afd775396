/**
 * NIFTIConverterImpl: one DICOM record per (channel, slice) of a NIfTI-1 volume, channel-major.
 * Each record is a copy of the converter's prototype holding the slice's pixels, a three-level
 * UID hierarchy drawn from a digit source, its instance number, the header attributes and the
 * one window computed for the whole volume.
 */
module Converter {
  import opened Wrappers
  import opened Nifti
  import opened Dicom
  import opened PixelData
  import opened HeaderMapper
  import opened WindowInjector
  import opened Windowing

  /** What rnd.nextInt(10) returns. */
  type Digit = d: int | 0 <= d < 10

  /** The length of every generated UID term (generateUidTerm(8)). */
  const TermSize: nat := 8

  /** Transfer Syntax UID of Explicit VR Little Endian, the default prototype's only attribute. */
  const ExplicitVRLittleEndian: string := "1.2.840.10008.1.2.1"
  const DefaultPrototype: Record := map[TransferSyntaxUID := Str(UI, ExplicitVRLittleEndian)]

  function DigitChar(d: Digit): (c: char)
    ensures '0' <= c <= '9'
  {
    ('0' as int + d) as char
  }

  /** The term generateUidTerm(size) builds from draws start, start + 1, ... of the digit source. */
  function UidTerm(source: nat -> Digit, start: nat, size: nat): (t: string)
    ensures |t| == size
    ensures forall i | 0 <= i < size :: '0' <= t[i] <= '9'
  {
    var t := seq(size, i requires 0 <= i < size => DigitChar(source(start + i)));
    assert forall i | 0 <= i < size :: t[i] == DigitChar(source(start + i));
    t
  }

  /** The attributes convertSlice stamps after the pixel data. */
  const StampTags: set<Tag> := {StudyInstanceUID, SeriesInstanceUID, SOPInstanceUID, FrameOfReferenceUID, InstanceNumber}

  /** The UID and numbering puts of convertSlice. */
  function Stamp(r: Record, study: string, series: string, instance: string, nz: int): (r': Record)
    ensures Holds(r', StudyInstanceUID, Str(UI, study)) && Holds(r', SeriesInstanceUID, Str(UI, series))
    ensures Holds(r', SOPInstanceUID, Str(UI, instance)) && Holds(r', FrameOfReferenceUID, Str(UI, instance + ".0"))
    ensures Holds(r', InstanceNumber, Int(IS, nz + 1))
    ensures AgreeOutside(r, r', StampTags)
  {
    r[StudyInstanceUID := Str(UI, study)][SeriesInstanceUID := Str(UI, series)]
     [SOPInstanceUID := Str(UI, instance)][FrameOfReferenceUID := Str(UI, instance + ".0")]
     [InstanceNumber := Int(IS, nz + 1)]
  }

  /** putPixelData succeeds: a supported datatype, or a slice with no voxel. */
  predicate PixelsOk(vol: Volume)
  {
    vol.sizeX * vol.sizeY == 0 || Supported(vol.header.dtype)
  }

  /** convertSlice with its instance UID: the mapped record, or the error putPixelData throws. */
  function SliceSpec(prototype: Record, vol: Volume, nz: int, dim: int, study: string, series: string, instance: string)
    : (r: Result<Record, ConvertError>)
    ensures r.Ok? <==> PixelsOk(vol)
    ensures r.Err? ==> r.error == UnsupportedDatatype(vol.header.dtype)
  {
    match PixelSpec(prototype, vol, nz, dim)
    case Err(e) => Err(e)
    case Ok(withPixels) => Ok(NIFTIDicomInjector(vol.header).Inject(Stamp(withPixels, study, series, instance, nz)))
  }

  /** Every attribute convertSlice may write. */
  const SliceTags: set<Tag> :=
    {PixelData, StudyInstanceUID, SeriesInstanceUID, SOPInstanceUID, FrameOfReferenceUID, InstanceNumber,
     Columns, Rows, ImagesInAcquisition, SamplesPerPixel, StudyDescription,
     BitsAllocated, BitsStored, HighBit, PixelRepresentation, RescaleSlope, RescaleIntercept,
     SliceThickness, PixelSpacing, ImageOrientation, ImagePosition}

  /** SliceTags is the pixel data, the stamped attributes and the header mapper's attributes. */
  lemma SliceTagsCover()
    ensures SliceTags == {PixelData} + StampTags + ImageTags + BitTags + RescaleTags + GeometryTags
  {
  }

  lemma OutsideHeaderTags(t: Tag)
    requires t in StampTags || t == PixelData
    ensures t !in ImageTags + BitTags + RescaleTags + GeometryTags
  {
  }

  /**
   * A converted slice holds its UIDs (the frame of reference is the instance UID with ".0"),
   * the instance number z + 1 and the slice's pixel data.
   */
  lemma SliceStamped(prototype: Record, vol: Volume, nz: int, dim: int, study: string, series: string, instance: string)
    requires PixelsOk(vol)
    ensures var r := SliceSpec(prototype, vol, nz, dim, study, series, instance).value;
      && Holds(r, StudyInstanceUID, Str(UI, study)) && Holds(r, SeriesInstanceUID, Str(UI, series))
      && Holds(r, SOPInstanceUID, Str(UI, instance)) && Holds(r, FrameOfReferenceUID, Str(UI, instance + ".0"))
      && Holds(r, InstanceNumber, Int(IS, nz + 1))
      && SlicePixels(vol, nz, dim).Ok? && Holds(r, PixelData, SlicePixels(vol, nz, dim).value)
  {
    var withPixels := PixelSpec(prototype, vol, nz, dim).value;
    PixelSpecProperties(prototype, vol, nz, dim);
    var stamped := Stamp(withPixels, study, series, instance, nz);
    var m := NIFTIDicomInjector(vol.header);
    HeaderFrame(m, stamped);
    OutsideHeaderTags(StudyInstanceUID);
    OutsideHeaderTags(SeriesInstanceUID);
    OutsideHeaderTags(SOPInstanceUID);
    OutsideHeaderTags(FrameOfReferenceUID);
    OutsideHeaderTags(InstanceNumber);
    OutsideHeaderTags(PixelData);
    assert Holds(stamped, PixelData, SlicePixels(vol, nz, dim).value);
  }

  /**
   * The float path's Rescale Intercept -1024 and Rescale Slope 1 survive the header mapping,
   * which writes the rescale pair only where it is absent.
   */
  lemma FloatRescaleSurvives(prototype: Record, vol: Volume, nz: int, dim: int, study: string, series: string, instance: string)
    requires PixelsOk(vol) && IsFloat(vol.header.dtype) && vol.sizeX * vol.sizeY > 0
    ensures var r := SliceSpec(prototype, vol, nz, dim, study, series, instance).value;
      Holds(r, RescaleIntercept, Dec(DS, -1024.0)) && Holds(r, RescaleSlope, Dec(DS, 1.0))
  {
    var withPixels := PixelSpec(prototype, vol, nz, dim).value;
    PixelSpecProperties(prototype, vol, nz, dim);
    var stamped := Stamp(withPixels, study, series, instance, nz);
    assert RescaleIntercept !in StampTags && RescaleSlope !in StampTags;
    HeaderRescale(NIFTIDicomInjector(vol.header), stamped);
  }

  /** Each of convertSlice's three steps writes only attributes of SliceTags. */
  lemma SliceTagsParts()
    ensures {PixelData, RescaleIntercept, RescaleSlope} <= SliceTags
    ensures StampTags <= SliceTags
    ensures ImageTags + BitTags + RescaleTags + GeometryTags <= SliceTags
  {
  }

  /**
   * Outside the attributes convertSlice writes, the record is the prototype: every other
   * prototype attribute is kept, and no other attribute appears.
   */
  lemma PrototypeKept(prototype: Record, vol: Volume, nz: int, dim: int, study: string, series: string, instance: string)
    requires PixelsOk(vol)
    ensures AgreeOutside(prototype, SliceSpec(prototype, vol, nz, dim, study, series, instance).value, SliceTags)
  {
    var withPixels := PixelSpec(prototype, vol, nz, dim).value;
    PixelSpecProperties(prototype, vol, nz, dim);
    var stamped := Stamp(withPixels, study, series, instance, nz);
    var mapped := NIFTIDicomInjector(vol.header).Inject(stamped);
    HeaderFrame(NIFTIDicomInjector(vol.header), stamped);
    SliceTagsParts();
    AgreeOutsideChain(prototype, withPixels, stamped, mapped, {PixelData, RescaleIntercept, RescaleSlope},
      StampTags, ImageTags + BitTags + RescaleTags + GeometryTags, SliceTags);
  }

  /** The window writes none of the attributes convertSlice stamps. */
  lemma OutsideWindowTags()
    ensures StudyInstanceUID !in WindowTags && SeriesInstanceUID !in WindowTags && SOPInstanceUID !in WindowTags
    ensures FrameOfReferenceUID !in WindowTags && InstanceNumber !in WindowTags && PixelData !in WindowTags
  {
  }

  /** Neither convertSlice nor the window writes Modality. */
  lemma ModalityUnwritten()
    ensures Modality !in SliceTags + WindowTags && Modality != TransferSyntaxUID
  {
  }

  /** Neither convertSlice nor the window writes the transfer syntax. */
  lemma TransferSyntaxKept()
    ensures TransferSyntaxUID !in SliceTags && TransferSyntaxUID !in WindowTags
  {
  }

  /** Where the series term of channel d starts among the draws: after the study term and d whole channels. */
  function SeriesDraw(start: nat, sizeZ: nat, d: nat): nat
  {
    start + TermSize + d * (TermSize + TermSize * sizeZ)
  }

  /** Where the instance term of slice z of channel d starts among the draws. */
  function InstanceDraw(start: nat, sizeZ: nat, d: nat, z: nat): nat
  {
    SeriesDraw(start, sizeZ, d) + TermSize + TermSize * z
  }

  /** After the last slice of channel d comes the series term of channel d + 1. */
  lemma NextSeriesDraw(start: nat, sizeZ: nat, d: nat)
    ensures InstanceDraw(start, sizeZ, d, sizeZ) == SeriesDraw(start, sizeZ, d + 1)
  {
    assert (d + 1) * (TermSize + TermSize * sizeZ) == d * (TermSize + TermSize * sizeZ) + (TermSize + TermSize * sizeZ);
  }

  /** f(0), f(1), ..., f(n - 1). */
  function Tabulate<T>(f: nat --> T, n: nat): (s: seq<T>)
    requires forall i | 0 <= i < n :: f.requires(i)
    ensures |s| == n && forall i | 0 <= i < n :: s[i] == f(i)
  {
    seq(n, i requires 0 <= i < n => f(i))
  }

  lemma TabulateSnoc<T>(f: nat --> T, n: nat)
    requires forall i | 0 <= i <= n :: f.requires(i)
    ensures Tabulate(f, n + 1) == Tabulate(f, n) + [f(n)]
  {
  }

  /**
   * The terms are drawn in stream order: the instance term of an earlier slice ends before
   * that of any later slice begins, so no two instance terms share a draw.
   */
  lemma InstanceDrawsOrdered(start: nat, sizeZ: nat, d: nat, z: nat, d': nat, z': nat)
    requires z < sizeZ && z' < sizeZ
    requires d < d' || (d == d' && z < z')
    ensures InstanceDraw(start, sizeZ, d, z) + TermSize <= InstanceDraw(start, sizeZ, d', z')
  {
    if d < d' {
      NextSeriesDraw(start, sizeZ, d);
      MulNonneg(d' - d - 1, TermSize + TermSize * sizeZ);
      assert d' * (TermSize + TermSize * sizeZ)
        == (d + 1) * (TermSize + TermSize * sizeZ) + (d' - d - 1) * (TermSize + TermSize * sizeZ);
    }
  }

  /** block(0) + block(1) + ... + block(n - 1). */
  function Concat<T>(block: nat --> seq<T>, n: nat): seq<T>
    requires forall i | 0 <= i < n :: block.requires(i)
  {
    if n == 0 then [] else Concat(block, n - 1) + block(n - 1)
  }

  /** n blocks of `size` elements each make n * size elements. */
  lemma {:induction false} ConcatLength<T>(block: nat --> seq<T>, n: nat, size: nat)
    requires forall i | 0 <= i < n :: block.requires(i) && |block(i)| == size
    ensures |Concat(block, n)| == n * size
  {
    if n > 0 {
      ConcatLength(block, n - 1, size);
      assert n * size == (n - 1) * size + size;
    }
  }

  /** Element z of block d sits at d * size + z. */
  lemma {:induction false} ConcatAt<T>(block: nat --> seq<T>, n: nat, size: nat, d: nat, z: nat)
    requires forall i | 0 <= i < n :: block.requires(i) && |block(i)| == size
    requires d < n && z < size
    ensures d * size + z < |Concat(block, n)|
    ensures Concat(block, n)[d * size + z] == block(d)[z]
  {
    ConcatLength(block, n, size);
    ConcatLength(block, n - 1, size);
    RowMajor(z, d, size, n);
    if d < n - 1 {
      ConcatAt(block, n - 1, size, d, z);
      RowMajor(z, d, size, n - 1);
    } else {
      assert d * size + z == |Concat(block, n - 1)| + z;
    }
  }

  class NIFTIConverter {
    /** The converter's own copy of the prototype; no record it makes shares it. */
    const prototype: Record
    /** java.util.Random as a stream of digits: draw n is source(n). */
    const source: nat -> Digit
    /** How many digits have been drawn so far. */
    var draws: nat

    /** new NIFTIConverterImpl(prototype) */
    constructor WithPrototype(prototype: Record, source: nat -> Digit)
      ensures this.prototype == prototype && this.source == source && draws == 0
    {
      var copy := new DicomObject.Copy(prototype);
      this.prototype := copy.elements;
      this.source := source;
      draws := 0;
    }

    /** new NIFTIConverterImpl(): a prototype holding only the Explicit VR Little Endian transfer syntax. */
    constructor (source: nat -> Digit)
      ensures prototype == DefaultPrototype && this.source == source && draws == 0
    {
      var p := new DicomObject();
      p.Put(TransferSyntaxUID, Str(UI, ExplicitVRLittleEndian));
      prototype := p.elements;
      this.source := source;
      draws := 0;
    }

    /** generateUidTerm(size): size decimal digits, one draw each. */
    method GenerateUidTerm(size: nat) returns (term: string)
      modifies this
      ensures term == UidTerm(source, old(draws), size) && draws == old(draws) + size
    {
      term := [];
      for i := 0 to size
        invariant term == UidTerm(source, old(draws), i) && draws == old(draws) + i
      {
        term := term + [DigitChar(source(draws))];
        draws := draws + 1;
      }
    }

    /** convertSlice with its instance UID: a copy of the prototype, filled in and mapped. */
    method ConvertSliceWithUid(vol: Volume, nz: int, dim: int, study: string, series: string, instance: string)
      returns (result: Result<DicomObject, ConvertError>)
      ensures var spec := SliceSpec(prototype, vol, nz, dim, study, series, instance);
        && (result.Ok? <==> spec.Ok?)
        && (result.Ok? ==> fresh(result.value) && result.value.elements == spec.value)
        && (result.Err? ==> result.error == spec.error)
    {
      var obj := new DicomObject.Copy(prototype);
      var err := PutPixelData(obj, vol, nz, dim);
      if err.Some? {
        return Err(err.value);
      }
      obj.Put(StudyInstanceUID, Str(UI, study));
      obj.Put(SeriesInstanceUID, Str(UI, series));
      obj.Put(SOPInstanceUID, Str(UI, instance));
      obj.Put(FrameOfReferenceUID, Str(UI, instance + ".0"));
      obj.Put(InstanceNumber, Int(IS, nz + 1));
      var mapped := NIFTIDicomInjector(vol.header).Apply(obj);
      return Ok(mapped);
    }

    /** convertSlice: draws the instance term under the series UID first. */
    method ConvertSlice(vol: Volume, nz: int, dim: int, study: string, series: string)
      returns (result: Result<DicomObject, ConvertError>)
      modifies this
      ensures draws == old(draws) + TermSize
      ensures var spec := SliceSpec(prototype, vol, nz, dim, study, series, series + "." + UidTerm(source, old(draws), TermSize));
        && (result.Ok? <==> spec.Ok?)
        && (result.Ok? ==> fresh(result.value) && result.value.elements == spec.value)
        && (result.Err? ==> result.error == spec.error)
    {
      var term := GenerateUidTerm(TermSize);
      result := ConvertSliceWithUid(vol, nz, dim, study, series, series + "." + term);
    }

    /** The study UID: the root and the first term. */
    function StudyUid(uidRoot: string, start: nat): string
    {
      uidRoot + "." + UidTerm(source, start, TermSize)
    }

    /** The series UID of channel d: the study UID and the channel's term. */
    function SeriesUid(uidRoot: string, start: nat, sizeZ: nat, d: nat): string
    {
      StudyUid(uidRoot, start) + "." + UidTerm(source, SeriesDraw(start, sizeZ, d), TermSize)
    }

    /** The SOP instance UID of slice z of channel d: the series UID and the slice's term. */
    function InstanceUid(uidRoot: string, start: nat, sizeZ: nat, d: nat, z: nat): string
    {
      SeriesUid(uidRoot, start, sizeZ, d) + "." + UidTerm(source, InstanceDraw(start, sizeZ, d, z), TermSize)
    }

    /** The record convert emits for slice z of channel d: the converted slice with the window applied. */
    function Converted(uidRoot: string, start: nat, vol: Volume, w: WindowDicomInjector, d: nat, z: nat): Record
      requires PixelsOk(vol)
    {
      w.Inject(SliceSpec(prototype, vol, z, d, StudyUid(uidRoot, start),
        SeriesUid(uidRoot, start, vol.sizeZ, d), InstanceUid(uidRoot, start, vol.sizeZ, d, z)).value)
    }

    /** Converted for channel d, as a function of the slice index. */
    function SliceOf(uidRoot: string, start: nat, vol: Volume, w: WindowDicomInjector, d: nat): nat --> Record
    {
      (z: nat) requires PixelsOk(vol) => Converted(uidRoot, start, vol, w, d, z)
    }

    /** The records of slices 0 .. n - 1 of channel d, slice 0 first. */
    function Slices(uidRoot: string, start: nat, vol: Volume, w: WindowDicomInjector, d: nat, n: nat): (rs: seq<Record>)
      requires n == 0 || PixelsOk(vol)
      ensures |rs| == n
    {
      Tabulate(SliceOf(uidRoot, start, vol, w, d), n)
    }

    /** Converting one more slice extends the channel by that slice's record. */
    lemma SlicesSnoc(uidRoot: string, start: nat, vol: Volume, w: WindowDicomInjector, d: nat, n: nat)
      requires PixelsOk(vol)
      ensures Slices(uidRoot, start, vol, w, d, n + 1) == Slices(uidRoot, start, vol, w, d, n) + [Converted(uidRoot, start, vol, w, d, n)]
    {
      TabulateSnoc(SliceOf(uidRoot, start, vol, w, d), n);
    }

    /** The records of channel d, as a function of the channel index. */
    function ChannelOf(uidRoot: string, start: nat, vol: Volume, w: WindowDicomInjector): nat --> seq<Record>
    {
      (d: nat) requires vol.sizeZ == 0 || PixelsOk(vol) => Slices(uidRoot, start, vol, w, d, vol.sizeZ)
    }

    /** The records of channels 0 .. n - 1, channel by channel. */
    function Channels(uidRoot: string, start: nat, vol: Volume, w: WindowDicomInjector, n: nat): seq<Record>
      requires n == 0 || vol.sizeZ == 0 || PixelsOk(vol)
    {
      Concat(ChannelOf(uidRoot, start, vol, w), n)
    }

    /**
     * convert, drawing from `start`: the window error before any record, then the datatype error
     * of the first slice, or every record.
     */
    function Conversion(uidRoot: string, start: nat, vol: Volume): Result<seq<Record>, ConvertError>
    {
      match WindowFor(vol)
      case Err(e) => Err(e)
      case Ok(w) =>
        if vol.dimension > 0 && vol.sizeZ > 0 && !PixelsOk(vol) then Err(UnsupportedDatatype(vol.header.dtype))
        else Ok(Channels(uidRoot, start, vol, w, vol.dimension))
    }

    /**
     * A successful conversion yields dimension * sizeZ records, slice z of channel d at
     * d * sizeZ + z, each converted with the window of the whole volume.
     */
    lemma ConversionRecords(uidRoot: string, start: nat, vol: Volume, d: nat, z: nat)
      requires Conversion(uidRoot, start, vol).Ok? && d < vol.dimension && z < vol.sizeZ
      ensures WindowFor(vol).Ok? && PixelsOk(vol)
      ensures var records := Conversion(uidRoot, start, vol).value;
        && |records| == vol.dimension * vol.sizeZ
        && d * vol.sizeZ + z < |records|
        && records[d * vol.sizeZ + z] == Converted(uidRoot, start, vol, WindowFor(vol).value, d, z)
    {
      var w := WindowFor(vol).value;
      var channel := ChannelOf(uidRoot, start, vol, w);
      ConcatLength(channel, vol.dimension, vol.sizeZ);
      ConcatAt(channel, vol.dimension, vol.sizeZ, d, z);
      assert Slices(uidRoot, start, vol, w, d, vol.sizeZ)[z] == SliceOf(uidRoot, start, vol, w, d)(z);
    }

    /**
     * Every record holds the study UID, its channel's series UID, its own instance UID (and the
     * frame of reference derived from it), the instance number z + 1, its slice's pixel data and
     * the window.
     */
    lemma ConvertedAttributes(uidRoot: string, start: nat, vol: Volume, w: WindowDicomInjector, d: nat, z: nat)
      requires PixelsOk(vol)
      ensures var r := Converted(uidRoot, start, vol, w, d, z);
        var instance := InstanceUid(uidRoot, start, vol.sizeZ, d, z);
        && Holds(r, StudyInstanceUID, Str(UI, StudyUid(uidRoot, start)))
        && Holds(r, SeriesInstanceUID, Str(UI, SeriesUid(uidRoot, start, vol.sizeZ, d)))
        && Holds(r, SOPInstanceUID, Str(UI, instance))
        && Holds(r, FrameOfReferenceUID, Str(UI, instance + ".0"))
        && Holds(r, InstanceNumber, Int(IS, z + 1))
        && SlicePixels(vol, z, d).Ok? && Holds(r, PixelData, SlicePixels(vol, z, d).value)
        && Holds(r, WindowCenter, Dec(DS, w.center)) && Holds(r, WindowWidth, Dec(DS, w.width))
    {
      SliceStamped(prototype, vol, z, d, StudyUid(uidRoot, start), SeriesUid(uidRoot, start, vol.sizeZ, d),
        InstanceUid(uidRoot, start, vol.sizeZ, d, z));
      OutsideWindowTags();
    }

    /**
     * Outside the attributes convertSlice and the window write, every record is the prototype:
     * its other attributes are kept, and no other attribute appears.
     */
    lemma ConvertedKeepsPrototype(uidRoot: string, start: nat, vol: Volume, w: WindowDicomInjector, d: nat, z: nat)
      requires PixelsOk(vol)
      ensures AgreeOutside(prototype, Converted(uidRoot, start, vol, w, d, z), SliceTags + WindowTags)
    {
      var slice := SliceSpec(prototype, vol, z, d, StudyUid(uidRoot, start), SeriesUid(uidRoot, start, vol.sizeZ, d),
        InstanceUid(uidRoot, start, vol.sizeZ, d, z)).value;
      PrototypeKept(prototype, vol, z, d, StudyUid(uidRoot, start), SeriesUid(uidRoot, start, vol.sizeZ, d),
        InstanceUid(uidRoot, start, vol.sizeZ, d, z));
      AgreeOutsideTrans(prototype, slice, w.Inject(slice), SliceTags, WindowTags);
    }

    /** The default converter's records all declare Explicit VR Little Endian. */
    lemma DefaultTransferSyntax(uidRoot: string, start: nat, vol: Volume, w: WindowDicomInjector, d: nat, z: nat)
      requires prototype == DefaultPrototype && PixelsOk(vol)
      ensures Holds(Converted(uidRoot, start, vol, w, d, z), TransferSyntaxUID, Str(UI, ExplicitVRLittleEndian))
    {
      TransferSyntaxKept();
      ConvertedKeepsPrototype(uidRoot, start, vol, w, d, z);
      assert TransferSyntaxUID !in SliceTags + WindowTags;
    }

    /**
     * The default converter's records hold the transfer syntax and what convertSlice and the
     * window write, and nothing else: in particular no Modality.
     */
    lemma DefaultConvertedTags(uidRoot: string, start: nat, vol: Volume, w: WindowDicomInjector, d: nat, z: nat)
      requires prototype == DefaultPrototype && PixelsOk(vol)
      ensures forall t | t in Converted(uidRoot, start, vol, w, d, z) :: t in SliceTags + WindowTags || t == TransferSyntaxUID
      ensures Modality !in Converted(uidRoot, start, vol, w, d, z)
    {
      ConvertedKeepsPrototype(uidRoot, start, vol, w, d, z);
      ModalityUnwritten();
    }

    /**
     * The UIDs nest: the series UID is the study UID, a dot and eight digits, and the instance
     * UID is the series UID, a dot and eight digits.
     */
    lemma UidHierarchy(uidRoot: string, start: nat, sizeZ: nat, d: nat, z: nat)
      ensures var study := StudyUid(uidRoot, start);
        var series := SeriesUid(uidRoot, start, sizeZ, d);
        var instance := InstanceUid(uidRoot, start, sizeZ, d, z);
        && |study| == |uidRoot| + 1 + TermSize && study[..|uidRoot|] == uidRoot
        && |series| == |study| + 1 + TermSize && series[..|study|] == study && series[|study|] == '.'
        && (forall i | |study| < i < |series| :: '0' <= series[i] <= '9')
        && |instance| == |series| + 1 + TermSize && instance[..|series|] == series && instance[|series|] == '.'
        && (forall i | |series| < i < |instance| :: '0' <= instance[i] <= '9')
    {
      var study := StudyUid(uidRoot, start);
      var series := SeriesUid(uidRoot, start, sizeZ, d);
      var instance := InstanceUid(uidRoot, start, sizeZ, d, z);
      var seriesTerm := UidTerm(source, SeriesDraw(start, sizeZ, d), TermSize);
      var instanceTerm := UidTerm(source, InstanceDraw(start, sizeZ, d, z), TermSize);
      assert series == study + "." + seriesTerm;
      assert instance == series + "." + instanceTerm;
      forall i | |study| < i < |series| ensures '0' <= series[i] <= '9' {
        assert series[i] == seriesTerm[i - |study| - 1];
      }
      forall i | |series| < i < |instance| ensures '0' <= instance[i] <= '9' {
        assert instance[i] == instanceTerm[i - |series| - 1];
      }
    }

    /** One element of the stream: convertSlice, then the window injector. */
    method ConvertAndWindow(vol: Volume, w: WindowDicomInjector, uidRoot: string, ghost start: nat, d: nat, z: nat,
                            study: string, series: string)
      returns (result: Result<Record, ConvertError>)
      requires draws == InstanceDraw(start, vol.sizeZ, d, z)
      requires study == StudyUid(uidRoot, start) && series == SeriesUid(uidRoot, start, vol.sizeZ, d)
      modifies this
      ensures draws == InstanceDraw(start, vol.sizeZ, d, z + 1)
      ensures result.Ok? <==> PixelsOk(vol)
      ensures result.Err? ==> result.error == UnsupportedDatatype(vol.header.dtype)
      ensures result.Ok? ==> result.value == Converted(uidRoot, start, vol, w, d, z)
    {
      ghost var before := draws;
      var slice := ConvertSlice(vol, z, d, study, series);
      if slice.Err? {
        return Err(slice.error);
      }
      assert series + "." + UidTerm(source, before, TermSize) == InstanceUid(uidRoot, start, vol.sizeZ, d, z);
      var obj := w.Apply(slice.value);
      return Ok(obj.elements);
    }

    /** The slices of channel d, under one series UID. */
    method ConvertChannel(vol: Volume, w: WindowDicomInjector, uidRoot: string, ghost start: nat, d: nat, study: string, series: string)
      returns (channel: seq<Record>, err: Option<ConvertError>)
      requires draws == SeriesDraw(start, vol.sizeZ, d) + TermSize
      requires study == StudyUid(uidRoot, start) && series == SeriesUid(uidRoot, start, vol.sizeZ, d)
      modifies this
      ensures err.Some? <==> vol.sizeZ > 0 && !PixelsOk(vol)
      ensures err.Some? ==> err.value == UnsupportedDatatype(vol.header.dtype)
      ensures err.None? ==> channel == Slices(uidRoot, start, vol, w, d, vol.sizeZ) && draws == SeriesDraw(start, vol.sizeZ, d + 1)
    {
      channel := [];
      var z := 0;
      while z < vol.sizeZ
        invariant 0 <= z <= vol.sizeZ
        invariant z > 0 ==> PixelsOk(vol)
        invariant draws == InstanceDraw(start, vol.sizeZ, d, z)
        invariant channel == Slices(uidRoot, start, vol, w, d, z)
      {
        var slice := ConvertAndWindow(vol, w, uidRoot, start, d, z, study, series);
        if slice.Err? {
          return channel, Some(slice.error);
        }
        SlicesSnoc(uidRoot, start, vol, w, d, z);
        channel := channel + [slice.value];
        z := z + 1;
      }
      NextSeriesDraw(start, vol.sizeZ, d);
      err := None;
    }

    /** convert: the window, the study UID, then channel by channel with one series UID each. */
    method Convert(vol: Volume, uidRoot: string) returns (result: Result<seq<Record>, ConvertError>)
      modifies this
      ensures result == Conversion(uidRoot, old(draws), vol)
      ensures WindowFor(vol).Err? ==> draws == old(draws)
      ensures result.Ok? ==> draws == SeriesDraw(old(draws), vol.sizeZ, vol.dimension)
    {
      ghost var start := draws;
      var window := CreateWindowInjector(vol);
      if window.Err? {
        return Err(window.error);
      }
      var w := window.value;
      var term := GenerateUidTerm(TermSize);
      var study := uidRoot + "." + term;
      var records: seq<Record> := [];
      var d := 0;
      while d < vol.dimension
        invariant 0 <= d <= vol.dimension
        invariant d > 0 && vol.sizeZ > 0 ==> PixelsOk(vol)
        invariant draws == SeriesDraw(start, vol.sizeZ, d)
        invariant records == Channels(uidRoot, start, vol, w, d)
      {
        var seriesTerm := GenerateUidTerm(TermSize);
        var channel, err := ConvertChannel(vol, w, uidRoot, start, d, study, study + "." + seriesTerm);
        if err.Some? {
          return Err(err.value);
        }
        records := records + channel;
        d := d + 1;
      }
      return Ok(records);
    }
  }
}
