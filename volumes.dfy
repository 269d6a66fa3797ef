/**
 * The Imaris (.ims) container as both tile paths see it through h5py: a map
 * from HDF5 paths to groups (their member names) and datasets (3D sample
 * arrays of shape (Z, Y, X)), plus h5py's rules for integer indices and
 * slices when one plane is read out of a dataset.
 */
module Volumes {
  import opened Common
  import opened Text
  import opened Matrices

  /** The three anatomical viewing planes. */
  datatype View = Sagittal | Coronal | Horizontal

  /** Sample type of a dataset; OtherType stands for every dtype besides the three unsigned ones. */
  datatype DType = UInt8 | UInt16 | UInt32 | OtherType(name: string)

  /** A dataset of shape (depth, height, width) = (Z, Y, X); at(z, y, x) is the sample there. */
  datatype Volume = Volume(dtype: DType, depth: nat, height: nat, width: nat, at: (int, int, int) -> int)

  datatype Node = Group(keys: seq<string>) | Dataset(volume: Volume)

  /** An open HDF5 file: every object by its path from the root, without the leading '/'. */
  type H5File = map<string, Node>

  datatype Axis = ZAxis | YAxis | XAxis

  function Extent(v: Volume, a: Axis): nat {
    match a
    case ZAxis => v.depth
    case YAxis => v.height
    case XAxis => v.width
  }

  /** h5py's IndexError for an integer index outside [-extent, extent). */
  datatype IndexError = IndexError(index: int, extent: nat)

  /** An integer index into an axis of length n: a negative one counts from the end. */
  function H5Index(i: int, n: nat): (r: Result<nat, IndexError>)
    ensures r.Ok? <==> -(n as int) <= i < n
    ensures r.Ok? ==> r.value < n && (if i >= 0 then r.value == i else r.value == i + n)
    ensures r.Err? ==> r.error == IndexError(i, n)
  {
    var k := if i < 0 then i + n else i;
    if 0 <= k < n then Ok(k) else Err(IndexError(i, n))
  }

  /** The (z, y, x) voxel with k on the fixed axis and a, b on the other two, in (z, y, x) order. */
  function Voxel(fixed: Axis, k: int, a: int, b: int): (int, int, int) {
    match fixed
    case ZAxis => (k, a, b)
    case YAxis => (a, k, b)
    case XAxis => (a, b, k)
  }

  /** The two axes left when `fixed` is indexed, in (z, y, x) order. */
  function OtherAxes(fixed: Axis): (Axis, Axis) {
    match fixed
    case ZAxis => (YAxis, XAxis)
    case YAxis => (ZAxis, XAxis)
    case XAxis => (ZAxis, YAxis)
  }

  /**
   * dataset[...] with the integer index on the fixed axis and the slices
   * lo1:hi1 and lo2:hi2 on the two other axes, in (z, y, x) order.
   */
  function ReadPlane(v: Volume, fixed: Axis, index: int, lo1: int, hi1: int, lo2: int, hi2: int)
    : (r: Result<Matrix, IndexError>)
    ensures r.Ok? <==> H5Index(index, Extent(v, fixed)).Ok?
    ensures r.Ok? ==>
      && r.value.Valid()
      && r.value.rows == SliceLen(lo1, hi1, Extent(v, OtherAxes(fixed).0))
      && r.value.cols == SliceLen(lo2, hi2, Extent(v, OtherAxes(fixed).1))
  {
    match H5Index(index, Extent(v, fixed))
    case Err(e) => Err(e)
    case Ok(k) =>
      var (a1, a2) := OtherAxes(fixed);
      var n1, n2 := Extent(v, a1), Extent(v, a2);
      var s1, s2 := Clip(lo1, n1), Clip(lo2, n2);
      var h, w := SliceLen(lo1, hi1, n1), SliceLen(lo2, hi2, n2);
      Ok(Matrix(h, w,
        seq(h, i requires 0 <= i < h =>
          seq(w, j requires 0 <= j < w =>
            var (z, y, x) := Voxel(fixed, k, s1 + i, s2 + j); v.at(z, y, x)))))
  }

  /** The cell (i, j) of a plane read by ReadPlane is the voxel at the clipped slice starts plus (i, j). */
  lemma ReadPlaneAt(v: Volume, fixed: Axis, index: int, lo1: int, hi1: int, lo2: int, hi2: int, i: nat, j: nat)
    requires ReadPlane(v, fixed, index, lo1, hi1, lo2, hi2).Ok?
    requires i < ReadPlane(v, fixed, index, lo1, hi1, lo2, hi2).value.rows
    requires j < ReadPlane(v, fixed, index, lo1, hi1, lo2, hi2).value.cols
    ensures var k := H5Index(index, Extent(v, fixed)).value;
      var (z, y, x) := Voxel(fixed, k, Clip(lo1, Extent(v, OtherAxes(fixed).0)) + i,
                                       Clip(lo2, Extent(v, OtherAxes(fixed).1)) + j);
      ReadPlane(v, fixed, index, lo1, hi1, lo2, hi2).value.cells[i][j] == v.at(z, y, x)
  {
  }

  function LevelGroupPath(level: int): string {
    "DataSet/ResolutionLevel " + IntToStr(level)
  }

  /** 'DataSet/ResolutionLevel {level}/TimePoint 0' */
  function TimePointPath(level: int): string {
    LevelGroupPath(level) + "/TimePoint 0"
  }

  /** 'DataSet/ResolutionLevel {level}/TimePoint 0/Channel {channel}/Data' */
  function DataPath(level: int, channel: int): string {
    TimePointPath(level) + "/Channel " + IntToStr(channel) + "/Data"
  }
}
