/**
 * The decoded NIfTI-1 volume the converter reads: header fields and a voxel accessor.
 * Decoding the file is not part of this model; the volume is given.
 */
module Nifti {

  /** The voxel datatypes of nifti1.h. */
  datatype Datatype =
    | UINT8 | INT16 | INT32 | FLOAT32 | COMPLEX64 | FLOAT64 | RGB24
    | INT8 | UINT16 | UINT32 | INT64 | UINT64 | FLOAT128 | COMPLEX128 | COMPLEX256 | RGBA32
  {
    /** The datatype code a NIfTI-1 header stores (NIFTI_TYPE_*). */
    function Code(): int
    {
      match this
      case UINT8 => 2
      case INT16 => 4
      case INT32 => 8
      case FLOAT32 => 16
      case COMPLEX64 => 32
      case FLOAT64 => 64
      case RGB24 => 128
      case INT8 => 256
      case UINT16 => 512
      case UINT32 => 768
      case INT64 => 1024
      case UINT64 => 1280
      case FLOAT128 => 1536
      case COMPLEX128 => 1792
      case COMPLEX256 => 2048
      case RGBA32 => 2304
    }

    /** Bytes one voxel of this datatype occupies in the file (NiftiHeader.bytesPerVoxel). */
    function BytesPerVoxel(): (n: nat)
      ensures n >= 1
    {
      match this
      case UINT8 | INT8 => 1
      case INT16 | UINT16 => 2
      case RGB24 => 3
      case INT32 | UINT32 | FLOAT32 | RGBA32 => 4
      case COMPLEX64 | FLOAT64 | INT64 | UINT64 => 8
      case FLOAT128 | COMPLEX128 => 16
      case COMPLEX256 => 32
    }
  }

  /** The header datatype code read back as a datatype, for the codes of the Datatype enum. */
  function DatatypeOfCode(code: int): (dt: Datatype)
    requires code in {2, 4, 8, 16, 32, 64, 128, 256, 512, 768, 1024, 1280, 1536, 1792, 2048, 2304}
    ensures dt.Code() == code
  {
    if code == 2 then UINT8 else if code == 4 then INT16 else if code == 8 then INT32
    else if code == 16 then FLOAT32 else if code == 32 then COMPLEX64 else if code == 64 then FLOAT64
    else if code == 128 then RGB24 else if code == 256 then INT8 else if code == 512 then UINT16
    else if code == 768 then UINT32 else if code == 1024 then INT64 else if code == 1280 then UINT64
    else if code == 1536 then FLOAT128 else if code == 1792 then COMPLEX128 else if code == 2048 then COMPLEX256
    else RGBA32
  }

  /** Every datatype has its own code. */
  lemma CodeInjective(a: Datatype, b: Datatype)
    requires a.Code() == b.Code()
    ensures a == b
  {
  }

  /** dim[0..7] and pixdim[0..7] of the header: always eight entries. */
  type Dims = s: seq<int> | |s| == 8 witness [0, 0, 0, 0, 0, 0, 0, 0]
  type Spacings = s: seq<real> | |s| == 8 witness [0.0, 0.0, 0.0, 0.0, 0.0, 0.0, 0.0, 0.0]

  datatype Header = Header(
    dim: Dims,
    pixdim: Spacings,
    dtype: Datatype,            // header.datatype
    bitpix: int,
    sclSlope: real,
    sclInter: real,
    descrip: string)

  /**
   * A decoded volume: its header, its four extents and its voxels, keyed by (x, y, z, d) as
   * data.get(x, y, z, d) reads them. Only keys inside the extents are ever read.
   */
  datatype Volume = Volume(
    header: Header,
    sizeX: nat,
    sizeY: nat,
    sizeZ: nat,
    dimension: nat,
    data: map<(int, int, int, int), real>)

  function Voxel(vol: Volume, x: int, y: int, z: int, d: int): real
  {
    if (x, y, z, d) in vol.data then vol.data[(x, y, z, d)] else 0.0
  }

  ghost predicate InVolume(vol: Volume, x: int, y: int, z: int, d: int)
  {
    0 <= x < vol.sizeX && 0 <= y < vol.sizeY && 0 <= z < vol.sizeZ && 0 <= d < vol.dimension
  }

  /** Why a conversion fails (both surface as a RuntimeIOException). */
  datatype ConvertError =
    | InvalidWindowWidth                     // the window constructor's IllegalArgumentException
    | UnsupportedDatatype(dtype: Datatype)  // "Unsupported NIFTI data type ..."
}
