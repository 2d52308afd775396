/**
 * putPixelData: one axial slice of one volume of the NIfTI-1 image, normalised by the
 * header's scaling, narrowed to at most 16 bits per sample and written little-endian into
 * the Pixel Data element (DICOM PS3.5 section 8.1.1; OB for 8-bit samples, OW otherwise).
 */
module PixelData {
  import opened Wrappers
  import opened JavaNum
  import opened Nifti
  import opened Dicom

  /** How the switch in putPixelData narrows one normalised voxel. */
  datatype Packing =
    | AsByte       // INT8, UINT8: (byte) v
    | AsShort      // INT16, UINT16: (short) v
    | HighShort    // INT32, UINT32: (short) ((int) v >>> 16)
    | OffsetShort  // FLOAT32, FLOAT64: (short) (v + 1024)

  /** The switch's cases; every other datatype takes the default branch and throws. */
  function PackingOf(dt: Datatype): Option<Packing>
  {
    match dt
    case INT8 | UINT8 => Some(AsByte)
    case INT16 | UINT16 => Some(AsShort)
    case INT32 | UINT32 => Some(HighShort)
    case FLOAT32 | FLOAT64 => Some(OffsetShort)
    case _ => None
  }

  /** The datatypes putPixelData can convert. */
  predicate Supported(dt: Datatype)
  {
    PackingOf(dt).Some?
  }

  predicate IsFloat(dt: Datatype)
  {
    dt == FLOAT32 || dt == FLOAT64
  }

  /** sizeof_unit: the voxel size of the datatype, capped at two bytes. */
  function UnitSize(dt: Datatype): (unit: nat)
    ensures unit == 1 || unit == 2
    ensures unit == 1 <==> dt == INT8 || dt == UINT8
  {
    var n := dt.BytesPerVoxel();
    if n > 2 then 2 else n
  }

  /** Exactly the eight integer and floating-point datatypes of up to 32 bits are supported. */
  lemma SupportedTypes(dt: Datatype)
    ensures Supported(dt) <==> dt in {INT8, UINT8, INT16, UINT16, INT32, UINT32, FLOAT32, FLOAT64}
    ensures Supported(dt) ==> (UnitSize(dt) == 1 <==> PackingOf(dt) == Some(AsByte))
  {
  }

  /** (v - scl_inter) / scl_slope for the voxel at (x, y, z, d). */
  function Normalized(vol: Volume, x: int, y: int, z: int, d: int): (v: Double)
    ensures vol.header.sclSlope != 0.0 ==>
      v == Finite((Voxel(vol, x, y, z, d) - vol.header.sclInter) / vol.header.sclSlope)
  {
    Quotient(Voxel(vol, x, y, z, d) - vol.header.sclInter, vol.header.sclSlope)
  }

  /** The narrowed value of one voxel, as the signed Java byte or short the switch computes. */
  function Sample(p: Packing, v: Double): (s: int)
    ensures p == AsByte ==> -0x80 <= s <= 0x7F
    ensures p != AsByte ==> ShortMin <= s <= ShortMax
  {
    match p
    case AsByte => IntToByte(DoubleToInt(v))
    case AsShort => IntToShort(DoubleToInt(v))
    case HighShort => IntToShort(UnsignedShiftRight16(DoubleToInt(v)))
    case OffsetShort => IntToShort(DoubleToInt(Plus(v, 1024.0)))
  }

  /** A voxel that already holds a byte or a short value passes through unchanged. */
  lemma SampleExact(p: Packing, n: int)
    requires p == AsByte ==> -0x80 <= n <= 0x7F
    requires p == AsShort ==> ShortMin <= n <= ShortMax
    requires p == AsShort || p == AsByte
    ensures Sample(p, Finite(n as real)) == n
  {
    assert TruncateTowardZero(n as real) == n;
  }

  /** Float voxels are shifted up by 1024, undone by the Rescale Intercept of -1024. */
  lemma SampleOffset(n: int)
    requires ShortMin <= n + 1024 <= ShortMax
    ensures Sample(OffsetShort, Finite(n as real)) - 1024 == n
  {
    assert TruncateTowardZero(n as real + 1024.0) == n + 1024;
  }

  /** A 32-bit voxel keeps its upper 16 bits: non-negative values are divided by 65536. */
  lemma SampleHigh(n: int)
    requires 0 <= n <= IntMax
    ensures Sample(HighShort, Finite(n as real)) == n / 0x1_0000
  {
    assert TruncateTowardZero(n as real) == n;
  }

  /** Row y of slice z of volume d, x ascending. */
  function Row(vol: Volume, p: Packing, z: int, d: int, y: int): (row: seq<int>)
    ensures |row| == vol.sizeX
  {
    seq(vol.sizeX, x requires 0 <= x < vol.sizeX => Sample(p, Normalized(vol, x, y, z, d)))
  }

  /** Rows 0 .. n - 1 of the slice, one after the other. */
  function Rows(vol: Volume, p: Packing, z: int, d: int, n: nat): (rows: seq<int>)
    ensures |rows| == n * vol.sizeX
  {
    if n == 0 then [] else Rows(vol, p, z, d, n - 1) + Row(vol, p, z, d, n - 1)
  }

  /** The voxels of slice z of volume d in the order the loops visit them: row by row, x fastest. */
  function SliceSamples(vol: Volume, p: Packing, z: int, d: int): (s: seq<int>)
    ensures |s| == vol.sizeX * vol.sizeY
  {
    Rows(vol, p, z, d, vol.sizeY)
  }

  /** Every sample of the slice fits its unit: a byte on the byte path, a short otherwise. */
  lemma {:induction false} RowsInRange(vol: Volume, p: Packing, z: int, d: int, n: nat)
    ensures p == AsByte ==> forall i | 0 <= i < |Rows(vol, p, z, d, n)| :: -0x80 <= Rows(vol, p, z, d, n)[i] <= 0x7F
    ensures p != AsByte ==> forall i | 0 <= i < |Rows(vol, p, z, d, n)| :: ShortMin <= Rows(vol, p, z, d, n)[i] <= ShortMax
  {
    if n > 0 {
      RowsInRange(vol, p, z, d, n - 1);
      var before, row := Rows(vol, p, z, d, n - 1), Row(vol, p, z, d, n - 1);
      forall i | 0 <= i < |before + row|
        ensures p == AsByte ==> -0x80 <= (before + row)[i] <= 0x7F
        ensures p != AsByte ==> ShortMin <= (before + row)[i] <= ShortMax
      {
        if i >= |before| { assert (before + row)[i] == row[i - |before|]; }
      }
    }
  }

  /** Sample y * sizeX + x of the slice is voxel (x, y): the pixel data is row-major. */
  lemma {:induction false} RowsAt(vol: Volume, p: Packing, z: int, d: int, n: nat, x: int, y: int)
    requires 0 <= x < vol.sizeX && 0 <= y < n
    ensures 0 <= y * vol.sizeX + x < |Rows(vol, p, z, d, n)|
    ensures Rows(vol, p, z, d, n)[y * vol.sizeX + x] == Sample(p, Normalized(vol, x, y, z, d))
  {
    RowMajor(x, y, vol.sizeX, n);
    var before := Rows(vol, p, z, d, n - 1);
    if y < n - 1 {
      RowsAt(vol, p, z, d, n - 1, x, y);
    } else {
      assert y * vol.sizeX + x == |before| + x;
    }
  }

  /** The bytes writeShort (two, little-endian) or the byte store (one) puts for a sample. */
  function EncodeOne(sample: int, unit: nat): (bytes: seq<byte>)
    requires unit == 1 || unit == 2
    ensures |bytes| == unit
  {
    if unit == 1 then [LowByte(sample)] else [LowByte(sample), HighByte(sample)]
  }

  /** One byte per sample, in sample order (the OB case). */
  function EncodeBytes(samples: seq<int>): (bytes: seq<byte>)
    ensures |bytes| == |samples|
  {
    if |samples| == 0 then []
    else EncodeBytes(samples[..|samples| - 1]) + EncodeOne(samples[|samples| - 1], 1)
  }

  /** Two little-endian bytes per sample, in sample order (the OW case). */
  function EncodeShorts(samples: seq<int>): (bytes: seq<byte>)
    ensures |bytes| == 2 * |samples|
  {
    if |samples| == 0 then []
    else EncodeShorts(samples[..|samples| - 1]) + EncodeOne(samples[|samples| - 1], 2)
  }

  /** The pixel data bytes of a run of samples, `unit` bytes per sample. */
  function Encode(samples: seq<int>, unit: nat): (bytes: seq<byte>)
    requires unit == 1 || unit == 2
    ensures |bytes| == if unit == 1 then |samples| else 2 * |samples|
  {
    if unit == 1 then EncodeBytes(samples) else EncodeShorts(samples)
  }

  /** Encoding one more sample appends that sample's bytes. */
  lemma EncodeAppend(done: seq<int>, s: int, unit: nat)
    requires unit == 1 || unit == 2
    ensures Encode(done + [s], unit) == Encode(done, unit) + EncodeOne(s, unit)
  {
    assert (done + [s])[..|done|] == done;
  }

  /** Byte i of the one-byte encoding is sample i. */
  lemma {:induction false} EncodeBytesAt(samples: seq<int>, i: nat)
    requires i < |samples|
    ensures EncodeBytes(samples)[i] == LowByte(samples[i])
    decreases |samples|
  {
    var n := |samples| - 1;
    if i < n {
      EncodeBytesAt(samples[..n], i);
    }
  }

  /** Bytes 2i and 2i + 1 of the two-byte encoding are sample i, low byte first. */
  lemma {:induction false} EncodeShortsAt(samples: seq<int>, i: nat)
    requires i < |samples|
    ensures EncodeShorts(samples)[2 * i] == LowByte(samples[i])
    ensures EncodeShorts(samples)[2 * i + 1] == HighByte(samples[i])
    decreases |samples|
  {
    var n := |samples| - 1;
    if i < n {
      EncodeShortsAt(samples[..n], i);
    }
  }

  /** How a reader of OW pixel data takes 16-bit little-endian samples back out. */
  function DecodeShorts(bytes: seq<byte>): (samples: seq<int>)
    ensures |samples| == |bytes| / 2
  {
    seq(|bytes| / 2, i requires 0 <= i < |bytes| / 2 => DecodeShort(bytes[2 * i], bytes[2 * i + 1]))
  }

  /** How a reader of OB pixel data takes signed 8-bit samples back out. */
  function DecodeBytes(bytes: seq<byte>): (samples: seq<int>)
    ensures |samples| == |bytes|
  {
    seq(|bytes|, i requires 0 <= i < |bytes| => IntToByte(bytes[i]))
  }

  /** Decoding the two-byte encoding gives back sample i when it fits in a short. */
  lemma ShortsRoundTripAt(samples: seq<int>, i: nat)
    requires i < |samples| && ShortMin <= samples[i] <= ShortMax
    ensures |DecodeShorts(EncodeShorts(samples))| == |samples|
    ensures DecodeShorts(EncodeShorts(samples))[i] == samples[i]
  {
    var bytes := EncodeShorts(samples);
    assert |bytes| / 2 == |samples|;
    EncodeShortsAt(samples, i);
    ShortRoundTrip(samples[i]);
  }

  /** Two-byte encoding loses no sample. */
  lemma ShortsRoundTrip(samples: seq<int>)
    requires forall i | 0 <= i < |samples| :: ShortMin <= samples[i] <= ShortMax
    ensures DecodeShorts(Encode(samples, 2)) == samples
  {
    var decoded := DecodeShorts(EncodeShorts(samples));
    forall i | 0 <= i < |samples|
      ensures decoded[i] == samples[i]
    {
      ShortsRoundTripAt(samples, i);
    }
    assert |EncodeShorts(samples)| / 2 == |samples|;
  }

  /** One-byte encoding loses no sample. */
  lemma BytesRoundTrip(samples: seq<int>)
    requires forall i | 0 <= i < |samples| :: -0x80 <= samples[i] <= 0x7F
    ensures DecodeBytes(Encode(samples, 1)) == samples
  {
    var decoded := DecodeBytes(EncodeBytes(samples));
    forall i | 0 <= i < |samples|
      ensures decoded[i] == samples[i]
    {
      BytesRoundTripAt(samples, i);
    }
  }

  /** Decoding the one-byte encoding gives back sample i when it fits in a byte. */
  lemma BytesRoundTripAt(samples: seq<int>, i: nat)
    requires i < |samples| && -0x80 <= samples[i] <= 0x7F
    ensures |DecodeBytes(EncodeBytes(samples))| == |samples|
    ensures DecodeBytes(EncodeBytes(samples))[i] == samples[i]
  {
    EncodeBytesAt(samples, i);
    ByteRoundTrip(samples[i]);
  }

  /** The slice's pixel data, or the error the default branch throws at the slice's first voxel. */
  function SlicePixels(vol: Volume, z: int, d: int): (r: Result<Element, ConvertError>)
    ensures r.Err? <==> vol.sizeX * vol.sizeY > 0 && !Supported(vol.header.dtype)
    ensures r.Err? ==> r.error == UnsupportedDatatype(vol.header.dtype)
    ensures r.Ok? ==> r.value.vr == (if UnitSize(vol.header.dtype) == 1 then OB else OW)
    ensures r.Ok? ==> r.value.value.Bytes?
    ensures r.Ok? ==> |r.value.value.bytes| == vol.sizeX * vol.sizeY * UnitSize(vol.header.dtype)
  {
    var dt := vol.header.dtype;
    var unit := UnitSize(dt);
    var vr := if unit == 1 then OB else OW;
    match PackingOf(dt)
    case Some(p) => Ok(Element(vr, Bytes(Encode(SliceSamples(vol, p, z, d), unit))))
    case None =>
      if vol.sizeX * vol.sizeY > 0 then Err(UnsupportedDatatype(dt))
      else Ok(Element(vr, Bytes(Encode([], unit))))
  }

  /** The fixed rescale pair the float branches put, once per voxel and so only for a non-empty slice. */
  function FloatRescale(r: Record, vol: Volume): Record
  {
    if IsFloat(vol.header.dtype) && vol.sizeX * vol.sizeY > 0 then PutFloatRescale(r) else r
  }

  /** The object putPixelData leaves behind, or the error it throws. */
  function PixelSpec(r: Record, vol: Volume, z: int, d: int): (r': Result<Record, ConvertError>)
    ensures r'.Err? <==> vol.sizeX * vol.sizeY > 0 && !Supported(vol.header.dtype)
    ensures r'.Err? ==> r'.error == UnsupportedDatatype(vol.header.dtype)
  {
    match SlicePixels(vol, z, d)
    case Err(e) => Err(e)
    case Ok(e) => Ok(FloatRescale(r, vol)[PixelData := e])
  }

  /**
   * A converted slice holds its pixel data; a float slice with at least one voxel also holds
   * Rescale Intercept -1024 and Rescale Slope 1, whatever it held before; nothing else changes.
   */
  lemma PixelSpecProperties(r: Record, vol: Volume, z: int, d: int)
    requires PixelSpec(r, vol, z, d).Ok?
    ensures var r' := PixelSpec(r, vol, z, d).value;
      && SlicePixels(vol, z, d).Ok? && Holds(r', PixelData, SlicePixels(vol, z, d).value)
      && (IsFloat(vol.header.dtype) && vol.sizeX * vol.sizeY > 0 ==>
            Holds(r', RescaleIntercept, Dec(DS, -1024.0)) && Holds(r', RescaleSlope, Dec(DS, 1.0)))
      && (!IsFloat(vol.header.dtype) || vol.sizeX * vol.sizeY == 0 ==> AgreeOutside(r, r', {PixelData}))
      && AgreeOutside(r, r', {PixelData, RescaleIntercept, RescaleSlope})
  {
  }

  /** For a supported datatype the result is the rescaled record with the encoded slice added. */
  lemma PixelSpecSupported(r: Record, vol: Volume, z: int, d: int, p: Packing)
    requires PackingOf(vol.header.dtype) == Some(p)
    ensures var unit := UnitSize(vol.header.dtype);
      PixelSpec(r, vol, z, d) == Ok(FloatRescale(r, vol)[PixelData :=
        Element(if unit == 1 then OB else OW, Bytes(Encode(SliceSamples(vol, p, z, d), unit)))])
  {
  }

  /** For an unsupported datatype an empty slice still gets its (empty) pixel data. */
  lemma PixelSpecUnsupportedEmpty(r: Record, vol: Volume, z: int, d: int)
    requires PackingOf(vol.header.dtype).None? && vol.sizeX * vol.sizeY == 0
    ensures var unit := UnitSize(vol.header.dtype);
      PixelSpec(r, vol, z, d) == Ok(FloatRescale(r, vol)[PixelData :=
        Element(if unit == 1 then OB else OW, Bytes(Encode([], unit)))])
  {
  }

  /** With slope 1 and intercept 0 the normalised voxel is the voxel itself. */
  lemma NormalizedIdentity(vol: Volume, x: int, y: int, z: int, d: int)
    requires vol.header.sclSlope == 1.0 && vol.header.sclInter == 0.0
    ensures Normalized(vol, x, y, z, d) == Finite(Voxel(vol, x, y, z, d))
  {
  }

  /** For a supported datatype the slice's PixelData holds the encoded samples of the slice. */
  lemma SliceBytes(r: Record, vol: Volume, z: int, d: int, p: Packing)
    requires PackingOf(vol.header.dtype) == Some(p)
    ensures PixelSpec(r, vol, z, d).Ok? && PixelData in PixelSpec(r, vol, z, d).value
    ensures PixelSpec(r, vol, z, d).value[PixelData].value.Bytes?
    ensures PixelSpec(r, vol, z, d).value[PixelData].value.bytes
      == Encode(SliceSamples(vol, p, z, d), UnitSize(vol.header.dtype))
  {
    PixelSpecSupported(r, vol, z, d, p);
  }

  /**
   * End to end for INT16 with the identity rescale: decoding the PixelData written for a slice
   * gives back every voxel value that fits in a short.
   */
  lemma Int16VoxelRoundTrip(r: Record, vol: Volume, z: int, d: int, x: int, y: int, n: int)
    requires vol.header.dtype == INT16 && vol.header.sclSlope == 1.0 && vol.header.sclInter == 0.0
    requires 0 <= x < vol.sizeX && 0 <= y < vol.sizeY
    requires Voxel(vol, x, y, z, d) == n as real && ShortMin <= n <= ShortMax
    ensures PixelSpec(r, vol, z, d).Ok?
    ensures var bytes := PixelSpec(r, vol, z, d).value[PixelData].value.bytes;
      0 <= y * vol.sizeX + x < |DecodeShorts(bytes)| && DecodeShorts(bytes)[y * vol.sizeX + x] == n
  {
    var samples := SliceSamples(vol, AsShort, z, d);
    var k := y * vol.sizeX + x;
    SliceBytes(r, vol, z, d, AsShort);
    RowsAt(vol, AsShort, z, d, vol.sizeY, x, y);
    NormalizedIdentity(vol, x, y, z, d);
    SampleExact(AsShort, n);
    assert samples[k] == n;
    ShortsRoundTripAt(samples, k);
  }

  /**
   * End to end for INT8 with the identity rescale: decoding the PixelData written for a slice
   * gives back every voxel value that fits in a byte.
   */
  lemma Int8VoxelRoundTrip(r: Record, vol: Volume, z: int, d: int, x: int, y: int, n: int)
    requires vol.header.dtype == INT8 && vol.header.sclSlope == 1.0 && vol.header.sclInter == 0.0
    requires 0 <= x < vol.sizeX && 0 <= y < vol.sizeY
    requires Voxel(vol, x, y, z, d) == n as real && -0x80 <= n <= 0x7F
    ensures PixelSpec(r, vol, z, d).Ok?
    ensures var bytes := PixelSpec(r, vol, z, d).value[PixelData].value.bytes;
      0 <= y * vol.sizeX + x < |DecodeBytes(bytes)| && DecodeBytes(bytes)[y * vol.sizeX + x] == n
  {
    var samples := SliceSamples(vol, AsByte, z, d);
    var k := y * vol.sizeX + x;
    SliceBytes(r, vol, z, d, AsByte);
    RowsAt(vol, AsByte, z, d, vol.sizeY, x, y);
    NormalizedIdentity(vol, x, y, z, d);
    SampleExact(AsByte, n);
    assert samples[k] == n;
    BytesRoundTripAt(samples, k);
  }

  /** writeShort: the little-endian bytes of a short at offset and offset + 1. */
  method WriteShort(arr: array<byte>, offset: int, value: int)
    requires 0 <= offset && offset + 1 < arr.Length
    requires ShortMin <= value <= ShortMax
    modifies arr
    ensures arr[offset] == LowByte(value) && arr[offset + 1] == HighByte(value)
    ensures DecodeShort(arr[offset], arr[offset + 1]) == value
    ensures forall i | 0 <= i < arr.Length && i != offset && i != offset + 1 :: arr[i] == old(arr[i])
  {
    arr[offset] := LowByte(value);
    arr[offset + 1] := HighByte(value);
    ShortRoundTrip(value);
  }

  lemma MulNonneg(a: int, b: int)
    requires a >= 0 && b >= 0
    ensures a * b >= 0
  {
  }

  /** Voxel (x, y) of a sizeX by sizeY slice sits at y * sizeX + x, inside the slice. */
  lemma RowMajor(x: int, y: int, sizeX: int, sizeY: int)
    requires 0 <= x < sizeX && 0 <= y < sizeY
    ensures 0 <= y * sizeX + x < sizeX * sizeY
  {
    MulNonneg(y, sizeX);
    MulNonneg(sizeY - 1 - y, sizeX);
    assert sizeX * sizeY == y * sizeX + sizeX + (sizeY - 1 - y) * sizeX;
  }

  /** The rescale pair the float branches put. */
  function PutFloatRescale(r: Record): Record
  {
    r[RescaleIntercept := Dec(DS, -1024.0)][RescaleSlope := Dec(DS, 1.0)]
  }

  /** One pass through the switch for a supported datatype: store the sample, and for floats the rescale pair. */
  method PutSample(obj: DicomObject, pixeldata: array<byte>, index: nat, unit: nat, p: Packing, s: int)
    requires unit == (if p == AsByte then 1 else 2) && index + unit <= pixeldata.Length
    requires p == AsByte ==> -0x80 <= s <= 0x7F
    requires p != AsByte ==> ShortMin <= s <= ShortMax
    modifies obj, pixeldata
    ensures pixeldata[..index + unit] == old(pixeldata[..index]) + EncodeOne(s, unit)
    ensures obj.elements == if p == OffsetShort then PutFloatRescale(old(obj.elements)) else old(obj.elements)
  {
    if p == AsByte {
      pixeldata[index] := LowByte(s);
    } else {
      if p == OffsetShort {
        obj.Put(RescaleIntercept, Dec(DS, -1024.0));
        obj.Put(RescaleSlope, Dec(DS, 1.0));
      }
      WriteShort(pixeldata, index, s);
    }
  }

  /** Putting the rescale pair a second time changes nothing. */
  lemma PutFloatRescaleTwice(r: Record)
    ensures PutFloatRescale(PutFloatRescale(r)) == PutFloatRescale(r)
  {
    var once := PutFloatRescale(r);
    PutHeld(once, RescaleIntercept, Dec(DS, -1024.0));
    PutHeld(once, RescaleSlope, Dec(DS, 1.0));
  }

  /** Where the bytes of sample k start: k * unit. */
  function Offset(k: int, unit: nat): int
  {
    if unit == 1 then k else 2 * k
  }

  /** The narrowing, sample size and rescale flag putPixelData derives from the datatype agree. */
  lemma PackingFacts(dt: Datatype)
    ensures PackingOf(dt).Some? ==> (UnitSize(dt) == 1 <==> PackingOf(dt).value == AsByte)
    ensures PackingOf(dt).Some? ==> (IsFloat(dt) <==> PackingOf(dt).value == OffsetShort)
  {
  }

  /**
   * The state of putPixelData once the samples `done` have been stored, `unit` bytes each:
   * the object is r0 until the first voxel and r1 from then on (r1 adds the rescale pair for floats).
   */
  ghost predicate Visited(obj: DicomObject, pixeldata: array<byte>, unit: nat, done: seq<int>, index: int, r0: Record, r1: Record)
    reads obj, pixeldata
  {
    && (unit == 1 || unit == 2)
    && index == Offset(|done|, unit) && index <= pixeldata.Length
    && pixeldata[..index] == Encode(done, unit)
    && obj.elements == (if |done| > 0 then r1 else r0)
  }

  /** The samples of rows 0 .. y - 1 for a supported datatype; none otherwise. */
  function RowsDone(vol: Volume, packing: Option<Packing>, z: int, d: int, y: nat): seq<int>
  {
    match packing
    case Some(p) => Rows(vol, p, z, d, y)
    case None => []
  }

  /** Row y as putPixelData stores it for a supported datatype; none otherwise. */
  function RowDone(vol: Volume, packing: Option<Packing>, z: int, d: int, y: int): seq<int>
  {
    match packing
    case Some(p) => Row(vol, p, z, d, y)
    case None => []
  }

  /** The number of samples in `rows` rows of `width` samples: rows * width, counted row by row. */
  function RowsLeft(rows: nat, width: nat): nat
  {
    if rows == 0 then 0 else RowsLeft(rows - 1, width) + width
  }

  /** Counting row by row gives the product. */
  lemma {:induction false} RowsLeftProduct(rows: nat, width: nat)
    ensures RowsLeft(rows, width) == width * rows
  {
    if rows > 0 {
      RowsLeftProduct(rows - 1, width);
      assert width * rows == width * (rows - 1) + width;
    }
  }

  /** One voxel of the inner loop for a supported datatype: narrow it, store it, advance. */
  method PutVoxel(obj: DicomObject, pixeldata: array<byte>, vol: Volume, nz: int, dim: int, p: Packing,
                  unit: nat, x: int, y: int, index0: int, ghost done: seq<int>, ghost r0: Record, ghost r1: Record)
    returns (index: int)
    requires unit == (if p == AsByte then 1 else 2)
    requires r1 == if p == OffsetShort then PutFloatRescale(r0) else r0
    requires Visited(obj, pixeldata, unit, done, index0, r0, r1)
    requires Offset(|done| + 1, unit) <= pixeldata.Length
    modifies obj, pixeldata
    ensures Visited(obj, pixeldata, unit, done + [Sample(p, Normalized(vol, x, y, nz, dim))], index, r0, r1)
  {
    var s := Sample(p, Normalized(vol, x, y, nz, dim));
    PutSample(obj, pixeldata, index0, unit, p, s);
    EncodeAppend(done, s, unit);
    if p == OffsetShort && |done| > 0 {
      PutFloatRescaleTwice(r0);
    }
    index := index0 + unit;
  }

  /** The inner loop of putPixelData for a supported datatype: row y of the slice, x ascending. */
  method PutRowSamples(obj: DicomObject, pixeldata: array<byte>, vol: Volume, nz: int, dim: int,
                       p: Packing, unit: nat, y: nat, index0: int, ghost before: seq<int>, ghost r0: Record, ghost r1: Record)
    returns (index: int)
    requires unit == (if p == AsByte then 1 else 2)
    requires r1 == if p == OffsetShort then PutFloatRescale(r0) else r0
    requires Visited(obj, pixeldata, unit, before, index0, r0, r1)
    requires Offset(|before| + vol.sizeX, unit) <= pixeldata.Length
    modifies obj, pixeldata
    ensures Visited(obj, pixeldata, unit, before + Row(vol, p, nz, dim, y), index, r0, r1)
  {
    ghost var row := Row(vol, p, nz, dim, y);
    ghost var done := before;
    index := index0;
    var x := 0;
    assert before + row[..x] == before;
    while x < vol.sizeX
      invariant 0 <= x <= vol.sizeX
      invariant done == before + row[..x]
      invariant Visited(obj, pixeldata, unit, done, index, r0, r1)
    {
      index := PutVoxel(obj, pixeldata, vol, nz, dim, p, unit, x, y, index, done, r0, r1);
      assert row[..x + 1] == row[..x] + [row[x]];
      done := done + [row[x]];
      x := x + 1;
    }
    assert row[..x] == row;
  }

  /**
   * One pass of putPixelData's outer loop: row y of the slice. The switch's default branch
   * throws at the row's first voxel when the datatype is unsupported.
   */
  method PutRow(obj: DicomObject, pixeldata: array<byte>, vol: Volume, nz: int, dim: int,
                packing: Option<Packing>, unit: nat, y: nat,
                index0: int, ghost before: seq<int>, ghost r0: Record, ghost r1: Record)
    returns (index: int, err: Option<ConvertError>)
    requires packing.Some? ==> unit == (if packing.value == AsByte then 1 else 2)
    requires packing.Some? ==> r1 == if packing.value == OffsetShort then PutFloatRescale(r0) else r0
    requires Visited(obj, pixeldata, unit, before, index0, r0, r1)
    requires Offset(|before| + vol.sizeX, unit) <= pixeldata.Length
    requires |before| == 0 || packing.Some?
    modifies obj, pixeldata
    ensures err.Some? ==> err == Some(UnsupportedDatatype(vol.header.dtype)) && packing.None? && vol.sizeX > 0
    ensures err.Some? ==> obj.elements == old(obj.elements)
    ensures err.None? ==> vol.sizeX == 0 || packing.Some?
    ensures err.None? ==> Visited(obj, pixeldata, unit, before + RowDone(vol, packing, nz, dim, y), index, r0, r1)
  {
    match packing {
      case None =>
        if vol.sizeX > 0 {
          return index0, Some(UnsupportedDatatype(vol.header.dtype));
        }
        assert before + [] == before;
        return index0, None;
      case Some(p) =>
        index := PutRowSamples(obj, pixeldata, vol, nz, dim, p, unit, y, index0, before, r0, r1);
        return index, None;
    }
  }

  /** The outer loop of putPixelData: rows 0 .. sizeY - 1 of the slice. */
  method PutRows(obj: DicomObject, pixeldata: array<byte>, vol: Volume, nz: int, dim: int,
                 packing: Option<Packing>, unit: nat, ghost r0: Record, ghost r1: Record)
    returns (index: int, err: Option<ConvertError>)
    requires packing.Some? ==> unit == (if packing.value == AsByte then 1 else 2)
    requires packing.Some? ==> r1 == if packing.value == OffsetShort then PutFloatRescale(r0) else r0
    requires Visited(obj, pixeldata, unit, [], 0, r0, r1)
    requires pixeldata.Length == Offset(vol.sizeX * vol.sizeY, unit)
    modifies obj, pixeldata
    ensures err.Some? ==> err == Some(UnsupportedDatatype(vol.header.dtype)) && packing.None? && vol.sizeX * vol.sizeY > 0
    ensures err.Some? ==> obj.elements == old(obj.elements)
    ensures err.None? ==> vol.sizeX * vol.sizeY == 0 || packing.Some?
    ensures err.None? ==> |RowsDone(vol, packing, nz, dim, vol.sizeY)| == vol.sizeX * vol.sizeY
    ensures err.None? ==> Visited(obj, pixeldata, unit, RowsDone(vol, packing, nz, dim, vol.sizeY), index, r0, r1)
  {
    index := 0;
    var y := 0;
    ghost var done: seq<int> := [];
    RowsLeftProduct(vol.sizeY, vol.sizeX);
    while y < vol.sizeY
      invariant 0 <= y <= vol.sizeY
      invariant done == RowsDone(vol, packing, nz, dim, y)
      invariant |done| + RowsLeft(vol.sizeY - y, vol.sizeX) == vol.sizeX * vol.sizeY
      invariant |done| == 0 || packing.Some?
      invariant y == 0 ==> obj.elements == old(obj.elements)
      invariant Visited(obj, pixeldata, unit, done, index, r0, r1)
    {
      index, err := PutRow(obj, pixeldata, vol, nz, dim, packing, unit, y, index, done, r0, r1);
      if err.Some? {
        return;
      }
      done := done + RowDone(vol, packing, nz, dim, y);
      y := y + 1;
    }
    err := None;
  }

  /**
   * putPixelData: every voxel of the slice, row by row, into a buffer of sizeX * sizeY units,
   * which then becomes the Pixel Data element.
   */
  method PutPixelData(obj: DicomObject, vol: Volume, nz: int, dim: int) returns (err: Option<ConvertError>)
    modifies obj
    ensures PixelSpec(old(obj.elements), vol, nz, dim).Err? ==>
      err == Some(PixelSpec(old(obj.elements), vol, nz, dim).error) && obj.elements == old(obj.elements)
    ensures PixelSpec(old(obj.elements), vol, nz, dim).Ok? ==>
      err == None && obj.elements == PixelSpec(old(obj.elements), vol, nz, dim).value
  {
    var dt := vol.header.dtype;
    var packing := PackingOf(dt);
    var unit := UnitSize(dt);
    PackingFacts(dt);
    var sliceSize := vol.sizeX * vol.sizeY * unit;
    assert sliceSize == Offset(vol.sizeX * vol.sizeY, unit);
    var pixeldata := new byte[sliceSize];
    ghost var r0 := obj.elements;
    ghost var r1 := if IsFloat(dt) then PutFloatRescale(r0) else r0;
    var index;
    index, err := PutRows(obj, pixeldata, vol, nz, dim, packing, unit, r0, r1);
    if err.Some? {
      return;
    }
    match packing {
      case Some(p) =>
        PixelSpecSupported(r0, vol, nz, dim, p);
      case None =>
        PixelSpecUnsupportedEmpty(r0, vol, nz, dim);
    }
    assert pixeldata[..] == pixeldata[..index];
    obj.Put(PixelData, Element(if unit == 1 then OB else OW, Bytes(pixeldata[..])));
  }
}
