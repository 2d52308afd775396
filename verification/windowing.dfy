/**
 * createWindowInjector: one scan over every voxel of the volume (channel, slice, row, column,
 * the last fastest) keeps the running minimum and maximum, and the window is centred on their
 * midpoint with their difference as width (VOI LUT, DICOM PS3.3 section C.11.2).
 */
module Windowing {
  import opened Wrappers
  import opened JavaNum
  import opened Nifti
  import opened WindowInjector

  /** The running `min` and `max` of the scan. */
  datatype Extent = Extent(lo: real, hi: real)

  /** min starts at Double.MAX_VALUE and max at Double.MIN_VALUE, the smallest positive double. */
  const Initial: Extent := Extent(DoubleMaxValue, DoubleMinValue)

  /** One voxel: `if (min > v) min = v; if (max < v) max = v;` */
  function Visit(e: Extent, v: real): (e': Extent)
    ensures e'.lo <= e.lo && e'.lo <= v && (e'.lo == e.lo || e'.lo == v)
    ensures e'.hi >= e.hi && e'.hi >= v && (e'.hi == e.hi || e'.hi == v)
  {
    Extent(if e.lo > v then v else e.lo, if e.hi < v then v else e.hi)
  }

  /** The extent after visiting vs in order, starting from e. */
  function Scan(e: Extent, vs: seq<real>): Extent
  {
    if |vs| == 0 then e else Visit(Scan(e, vs[..|vs| - 1]), vs[|vs| - 1])
  }

  /** Scanning a concatenation is scanning its parts one after the other. */
  lemma {:induction false} ScanAppend(e: Extent, a: seq<real>, b: seq<real>)
    ensures Scan(e, a + b) == Scan(Scan(e, a), b)
    decreases |b|
  {
    if |b| == 0 {
      assert a + b == a;
    } else {
      var n := |b| - 1;
      assert (a + b)[..|a + b| - 1] == a + b[..n];
      ScanAppend(e, a, b[..n]);
    }
  }

  /** The scan's minimum lies below the start and every visited value, its maximum above them. */
  lemma {:induction false} ScanBounds(e: Extent, vs: seq<real>)
    ensures Scan(e, vs).lo <= e.lo && Scan(e, vs).hi >= e.hi
    ensures forall i | 0 <= i < |vs| :: Scan(e, vs).lo <= vs[i] <= Scan(e, vs).hi
  {
    if |vs| > 0 {
      var n := |vs| - 1;
      ScanBounds(e, vs[..n]);
      assert forall i | 0 <= i < n :: vs[..n][i] == vs[i];
    }
  }

  /** The scan's minimum is the start or one of the visited values; so is its maximum. */
  lemma {:induction false} ScanAttained(e: Extent, vs: seq<real>)
    ensures Scan(e, vs).lo == e.lo || Scan(e, vs).lo in vs
    ensures Scan(e, vs).hi == e.hi || Scan(e, vs).hi in vs
  {
    if |vs| > 0 {
      var n := |vs| - 1;
      ScanAttained(e, vs[..n]);
      assert forall v | v in vs[..n] :: v in vs;
    }
  }

  /** The voxels of row y of slice z of channel d, x ascending. */
  function RowVoxels(vol: Volume, d: int, z: int, y: int): (row: seq<real>)
    ensures |row| == vol.sizeX
  {
    seq(vol.sizeX, x requires 0 <= x < vol.sizeX => Voxel(vol, x, y, z, d))
  }

  /** Rows 0 .. n - 1 of slice z of channel d. */
  function SliceVoxels(vol: Volume, d: int, z: int, n: nat): seq<real>
  {
    if n == 0 then [] else SliceVoxels(vol, d, z, n - 1) + RowVoxels(vol, d, z, n - 1)
  }

  /** Slices 0 .. n - 1 of channel d. */
  function ChannelVoxels(vol: Volume, d: int, n: nat): seq<real>
  {
    if n == 0 then [] else ChannelVoxels(vol, d, n - 1) + SliceVoxels(vol, d, n - 1, vol.sizeY)
  }

  /** Channels 0 .. n - 1. */
  function VolumeVoxels(vol: Volume, n: nat): seq<real>
  {
    if n == 0 then [] else VolumeVoxels(vol, n - 1) + ChannelVoxels(vol, n - 1, vol.sizeZ)
  }

  /** Every voxel of the volume, in the order the four loops visit them. */
  function AllVoxels(vol: Volume): seq<real>
  {
    VolumeVoxels(vol, vol.dimension)
  }

  lemma {:induction false} InSlice(vol: Volume, x: int, y: int, z: int, d: int, n: nat)
    requires 0 <= x < vol.sizeX && 0 <= y < n
    ensures Voxel(vol, x, y, z, d) in SliceVoxels(vol, d, z, n)
  {
    if y < n - 1 {
      InSlice(vol, x, y, z, d, n - 1);
    } else {
      assert RowVoxels(vol, d, z, y)[x] == Voxel(vol, x, y, z, d);
    }
  }

  lemma {:induction false} InChannel(vol: Volume, x: int, y: int, z: int, d: int, n: nat)
    requires 0 <= x < vol.sizeX && 0 <= y < vol.sizeY && 0 <= z < n
    ensures Voxel(vol, x, y, z, d) in ChannelVoxels(vol, d, n)
  {
    var before, slice := ChannelVoxels(vol, d, n - 1), SliceVoxels(vol, d, n - 1, vol.sizeY);
    assert ChannelVoxels(vol, d, n) == before + slice;
    if z < n - 1 {
      InChannel(vol, x, y, z, d, n - 1);
    } else {
      InSlice(vol, x, y, z, d, vol.sizeY);
    }
  }

  lemma {:induction false} InVolumeVoxels(vol: Volume, x: int, y: int, z: int, d: int, n: nat)
    requires 0 <= x < vol.sizeX && 0 <= y < vol.sizeY && 0 <= z < vol.sizeZ && 0 <= d < n
    ensures Voxel(vol, x, y, z, d) in VolumeVoxels(vol, n)
  {
    var before, channel := VolumeVoxels(vol, n - 1), ChannelVoxels(vol, n - 1, vol.sizeZ);
    assert VolumeVoxels(vol, n) == before + channel;
    if d < n - 1 {
      InVolumeVoxels(vol, x, y, z, d, n - 1);
    } else {
      InChannel(vol, x, y, z, d, vol.sizeZ);
    }
  }

  /** The scan visits every voxel inside the volume's extents. */
  lemma VoxelVisited(vol: Volume, x: int, y: int, z: int, d: int)
    requires InVolume(vol, x, y, z, d)
    ensures Voxel(vol, x, y, z, d) in AllVoxels(vol)
  {
    InVolumeVoxels(vol, x, y, z, d, vol.dimension);
  }

  /** The min and max createWindowInjector ends with. */
  function VolumeExtent(vol: Volume): Extent
  {
    Scan(Initial, AllVoxels(vol))
  }

  /**
   * The window createWindowInjector returns: centre (max + min) / 2 and width max - min,
   * or the error a width of at most 1.0 raises.
   */
  function WindowFor(vol: Volume): (w: Result<WindowDicomInjector, ConvertError>)
    ensures var e := VolumeExtent(vol);
      && (w.Ok? <==> e.hi - e.lo > 1.0)
      && (w.Ok? ==> w.value == WindowDicomInjector((e.hi + e.lo) / 2.0, e.hi - e.lo))
      && (w.Err? ==> w.error == InvalidWindowWidth)
  {
    var e := VolumeExtent(vol);
    match NewWindowDicomInjector((e.hi + e.lo) / 2.0, e.hi - e.lo)
    case Ok(injector) => Ok(injector)
    case Err(_) => Err(InvalidWindowWidth)
  }

  /**
   * The scan's min is at most every voxel and at most Double.MAX_VALUE, and it is one of them;
   * its max is at least every voxel and at least Double.MIN_VALUE, and it is one of them.
   */
  lemma VolumeExtentIsMinMax(vol: Volume)
    ensures var e := VolumeExtent(vol);
      && e.lo <= DoubleMaxValue && e.hi >= DoubleMinValue
      && (forall x, y, z, d | InVolume(vol, x, y, z, d) :: e.lo <= Voxel(vol, x, y, z, d) <= e.hi)
      && (e.lo == DoubleMaxValue || e.lo in AllVoxels(vol))
      && (e.hi == DoubleMinValue || e.hi in AllVoxels(vol))
  {
    var vs := AllVoxels(vol);
    ScanBounds(Initial, vs);
    ScanAttained(Initial, vs);
    forall x, y, z, d | InVolume(vol, x, y, z, d)
      ensures VolumeExtent(vol).lo <= Voxel(vol, x, y, z, d) <= VolumeExtent(vol).hi
    {
      VoxelVisited(vol, x, y, z, d);
      var i :| 0 <= i < |vs| && vs[i] == Voxel(vol, x, y, z, d);
    }
  }

  /** A volume without voxels has no valid window: the start values give a negative width. */
  lemma EmptyVolumeHasNoWindow(vol: Volume)
    requires AllVoxels(vol) == []
    ensures WindowFor(vol) == Err(InvalidWindowWidth)
  {
  }

  /** max never drops below Double.MIN_VALUE: with only negative voxels it stays there. */
  lemma NegativeVolumeMax(vol: Volume)
    requires forall i | 0 <= i < |AllVoxels(vol)| :: AllVoxels(vol)[i] < 0.0
    ensures VolumeExtent(vol).hi == DoubleMinValue
  {
    var vs := AllVoxels(vol);
    ScanBounds(Initial, vs);
    ScanAttained(Initial, vs);
  }

  /** The innermost loop: row y, x ascending. */
  method ScanRow(vol: Volume, d: int, z: int, y: int, lo0: real, hi0: real) returns (lo: real, hi: real)
    ensures Extent(lo, hi) == Scan(Extent(lo0, hi0), RowVoxels(vol, d, z, y))
  {
    ghost var row := RowVoxels(vol, d, z, y);
    lo, hi := lo0, hi0;
    var x := 0;
    while x < vol.sizeX
      invariant 0 <= x <= vol.sizeX
      invariant Extent(lo, hi) == Scan(Extent(lo0, hi0), row[..x])
    {
      var v := Voxel(vol, x, y, z, d);
      if lo > v {
        lo := v;
      }
      if hi < v {
        hi := v;
      }
      assert row[..x + 1][..x] == row[..x];
      x := x + 1;
    }
    assert row[..x] == row;
  }

  /** The row loop: slice z of channel d. */
  method ScanSlice(vol: Volume, d: int, z: int, lo0: real, hi0: real) returns (lo: real, hi: real)
    ensures Extent(lo, hi) == Scan(Extent(lo0, hi0), SliceVoxels(vol, d, z, vol.sizeY))
  {
    lo, hi := lo0, hi0;
    var y := 0;
    while y < vol.sizeY
      invariant 0 <= y <= vol.sizeY
      invariant Extent(lo, hi) == Scan(Extent(lo0, hi0), SliceVoxels(vol, d, z, y))
    {
      ScanAppend(Extent(lo0, hi0), SliceVoxels(vol, d, z, y), RowVoxels(vol, d, z, y));
      lo, hi := ScanRow(vol, d, z, y, lo, hi);
      y := y + 1;
    }
  }

  /** The slice loop: channel d. */
  method ScanChannel(vol: Volume, d: int, lo0: real, hi0: real) returns (lo: real, hi: real)
    ensures Extent(lo, hi) == Scan(Extent(lo0, hi0), ChannelVoxels(vol, d, vol.sizeZ))
  {
    lo, hi := lo0, hi0;
    var z := 0;
    while z < vol.sizeZ
      invariant 0 <= z <= vol.sizeZ
      invariant Extent(lo, hi) == Scan(Extent(lo0, hi0), ChannelVoxels(vol, d, z))
    {
      ScanAppend(Extent(lo0, hi0), ChannelVoxels(vol, d, z), SliceVoxels(vol, d, z, vol.sizeY));
      lo, hi := ScanSlice(vol, d, z, lo, hi);
      z := z + 1;
    }
  }

  /** createWindowInjector: the channel loop, then the window constructor. */
  method CreateWindowInjector(vol: Volume) returns (w: Result<WindowDicomInjector, ConvertError>)
    ensures w == WindowFor(vol)
  {
    var min, max := DoubleMaxValue, DoubleMinValue;
    var d := 0;
    while d < vol.dimension
      invariant 0 <= d <= vol.dimension
      invariant Extent(min, max) == Scan(Initial, VolumeVoxels(vol, d))
    {
      ScanAppend(Initial, VolumeVoxels(vol, d), ChannelVoxels(vol, d, vol.sizeZ));
      min, max := ScanChannel(vol, d, min, max);
      d := d + 1;
    }
    var center := (max + min) / 2.0;
    var width := max - min;
    var made := NewWindowDicomInjector(center, width);
    if made.Err? {
      return Err(InvalidWindowWidth);
    }
    return Ok(made.value);
  }
}
