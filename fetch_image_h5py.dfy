/**
 * The developer script that reads one tile straight from an Imaris file:
 * a bounds pre-check on the requested voxel, a per-view window that starts
 * at that voxel (Python slices, no padding), axis reversals and a transpose,
 * a last row flip, and the 8-bit normalisation done before encoding.
 */
module FetchImageH5py {
  import opened Common
  import opened Matrices
  import opened Volumes

  /** A numpy array: a 2D one with its samples, or one of another rank of which only the shape matters. */
  datatype NdArray = Array2(dtype: DType, plane: Matrix) | ArrayN(dtype: DType, shape: seq<nat>)

  /** The encoder settings PIL is called with. */
  datatype Codec = Jpeg(quality: nat, optimize: bool) | Png(optimize: bool)

  /** What is handed to PIL: the encoder settings and the 8-bit grey image; the bytes themselves are opaque. */
  datatype EncodedImage = EncodedImage(codec: Codec, pixels: Matrix)

  datatype FetchError =
    | EmptyReduction                       // numpy max()/min() of an empty array
    | NotTwoDimensional                    // "Only 2D arrays are supported"
    | UnsupportedFormat(format: string)    // "Unsupported format"
    | H5IndexError(index: int, extent: nat) // h5py integer index out of range

  /** How read_save_ims ends: `return 1`, an exception, or a written file. */
  datatype Outcome = ReturnedOne | Raised(error: FetchError) | Saved(image: EncodedImage)

  predicate WideUnsigned(d: DType) { d == UInt16 || d == UInt32 }

  function Product(s: seq<nat>): nat {
    if s == [] then 1 else s[0] * Product(s[1..])
  }

  function MapCells(m: Matrix, f: int -> int): (r: Matrix)
    requires m.Valid()
    ensures r.Valid() && r.rows == m.rows && r.cols == m.cols
    ensures forall i, j :: 0 <= i < m.rows && 0 <= j < m.cols ==> r.cells[i][j] == f(m.cells[i][j])
  {
    Matrix(m.rows, m.cols,
      seq(m.rows, i requires 0 <= i < m.rows =>
        seq(m.cols, j requires 0 <= j < m.cols => f(m.cells[i][j]))))
  }

  // ---------------------------------------------------------------------------
  // array_to_image_bytes

  /**
   * One sample after normalisation, given the array's maximum `top` (used
   * only for uint16/uint32): uint8 is kept; uint16/uint32 become
   * trunc(v / top * 255) when top > 0 and v cast to uint8 otherwise; every
   * other dtype is clipped to [0, 1] and scaled by 255, which for integer
   * samples leaves 0 or 255.
   */
  function NormalisedSample(dtype: DType, top: int, v: int): int {
    if dtype == UInt8 then v
    else if WideUnsigned(dtype) then (if top > 0 then (v * 255) / top else v % 256)
    else if v <= 0 then 0 else 255
  }

  /** Normalisation can run: uint16/uint32 need a maximum, so a non-empty array. */
  predicate Normalisable(dtype: DType, m: Matrix) {
    m.Valid() && (WideUnsigned(dtype) ==> !m.IsEmpty())
  }

  /** The maximum the normalisation divides by; only uint16/uint32 compute one. */
  function Top(dtype: DType, m: Matrix): int
    requires Normalisable(dtype, m)
  {
    if WideUnsigned(dtype) then MaxCell(m) else 0
  }

  /** The normalised 2D array. */
  function Normalised(dtype: DType, m: Matrix): (r: Matrix)
    requires Normalisable(dtype, m)
    ensures r.Valid() && r.rows == m.rows && r.cols == m.cols
    ensures forall i, j :: 0 <= i < m.rows && 0 <= j < m.cols ==>
      r.cells[i][j] == NormalisedSample(dtype, Top(dtype, m), m.cells[i][j])
  {
    var top := Top(dtype, m);
    MapCells(m, v => NormalisedSample(dtype, top, v))
  }

  /** The samples a dtype can hold. */
  predicate InDTypeRange(dtype: DType, v: int) {
    match dtype
    case UInt8 => 0 <= v < 0x100
    case UInt16 => 0 <= v < 0x1_0000
    case UInt32 => 0 <= v < 0x1_0000_0000
    case OtherType(_) => true
  }

  predicate AllInRange(dtype: DType, m: Matrix)
    requires m.Valid()
  {
    forall i, j :: 0 <= i < m.rows && 0 <= j < m.cols ==> InDTypeRange(dtype, m.cells[i][j])
  }

  /** A uint8 array is passed on unchanged. */
  lemma NormalisedUInt8(m: Matrix)
    requires m.Valid()
    ensures Normalised(UInt8, m) == m
  {
    assert forall i :: 0 <= i < m.rows ==> Normalised(UInt8, m).cells[i] == m.cells[i];
  }

  /** Whatever the dtype, every sample it can hold is normalised into [0, 255]. */
  lemma NormalisedInByteRange(dtype: DType, m: Matrix)
    requires Normalisable(dtype, m) && AllInRange(dtype, m)
    ensures forall i, j :: 0 <= i < m.rows && 0 <= j < m.cols ==> 0 <= Normalised(dtype, m).cells[i][j] < 0x100
  {
    if WideUnsigned(dtype) {
      MaxCellIsMax(m);
      var top := MaxCell(m);
      forall i, j | 0 <= i < m.rows && 0 <= j < m.cols
        ensures 0 <= Normalised(dtype, m).cells[i][j] < 0x100
      {
        var v := m.cells[i][j];
        if top > 0 {
          ScaleAtMost255(v, top);
        }
      }
    }
  }

  /** 0 <= v <= top gives 0 <= trunc(v * 255 / top) <= 255. */
  lemma ScaleAtMost255(v: int, top: int)
    requires 0 <= v <= top && top > 0
    ensures 0 <= (v * 255) / top <= 255
  {
    assert v * 255 <= top * 255;
  }

  /** In a uint16/uint32 tile with a positive maximum, the samples equal to the maximum become 255. */
  lemma NormalisedMaxIs255(dtype: DType, m: Matrix, i: nat, j: nat)
    requires WideUnsigned(dtype) && Normalisable(dtype, m) && MaxCell(m) > 0
    requires i < m.rows && j < m.cols && m.cells[i][j] == MaxCell(m)
    ensures Normalised(dtype, m).cells[i][j] == 255
  {
    var top := MaxCell(m);
    assert (top * 255) / top == 255;
  }

  /** The rescaling keeps the order of samples (a brighter voxel never maps darker). */
  lemma NormalisedMonotone(dtype: DType, m: Matrix, i1: nat, j1: nat, i2: nat, j2: nat)
    requires WideUnsigned(dtype) && Normalisable(dtype, m) && MaxCell(m) > 0
    requires i1 < m.rows && j1 < m.cols && i2 < m.rows && j2 < m.cols
    requires m.cells[i1][j1] <= m.cells[i2][j2]
    ensures Normalised(dtype, m).cells[i1][j1] <= Normalised(dtype, m).cells[i2][j2]
  {
    var top, v1, v2 := MaxCell(m), m.cells[i1][j1], m.cells[i2][j2];
    DivMonotone(v1 * 255, v2 * 255, top);
  }

  lemma DivMonotone(a: int, b: int, d: int)
    requires a <= b && d > 0
    ensures a / d <= b / d
  {
    var qa, qb := a / d, b / d;
    if qa > qb {
      var k := qa - qb - 1;
      assert qa * d == qb * d + d + k * d;
      MulNonNegative(k, d);
    }
  }

  lemma MulNonNegative(k: nat, d: nat)
    ensures k * d >= 0
  {
  }

  /** An unsigned uint16/uint32 tile whose maximum is 0 becomes all zeros. */
  lemma NormalisedZeroMax(dtype: DType, m: Matrix)
    requires WideUnsigned(dtype) && Normalisable(dtype, m) && AllInRange(dtype, m) && MaxCell(m) == 0
    ensures forall i, j :: 0 <= i < m.rows && 0 <= j < m.cols ==> Normalised(dtype, m).cells[i][j] == 0
  {
    MaxCellIsMax(m);
  }

  /** Any other dtype becomes black or white: 0 exactly for the samples that are at most 0. */
  lemma NormalisedOtherType(name: string, m: Matrix, i: nat, j: nat)
    requires m.Valid() && i < m.rows && j < m.cols
    ensures Normalised(OtherType(name), m).cells[i][j] == (if m.cells[i][j] <= 0 then 0 else 255)
  {
  }

  /** The PIL settings for a format name, or None for a format other than JPEG and PNG. */
  function CodecFor(format: string): Option<Codec> {
    if format == "JPEG" then Some(Jpeg(85, true))
    else if format == "PNG" then Some(Png(true))
    else None
  }

  /**
   * array_to_image_bytes: normalise, insist on two dimensions, then encode
   * with the requested format.
   */
  method ArrayToImageBytes(data: NdArray, format: string) returns (r: Result<EncodedImage, FetchError>)
    requires data.Array2? ==> data.plane.Valid()
    ensures r == Err(EmptyReduction) <==>
      WideUnsigned(data.dtype) && (if data.Array2? then data.plane.IsEmpty() else Product(data.shape) == 0)
    ensures r == Err(NotTwoDimensional) <==>
      data.ArrayN? && !(WideUnsigned(data.dtype) && Product(data.shape) == 0)
    ensures r == Err(UnsupportedFormat(format)) <==>
      data.Array2? && Normalisable(data.dtype, data.plane) && CodecFor(format).None?
    ensures r.Ok? <==> data.Array2? && Normalisable(data.dtype, data.plane) && CodecFor(format).Some?
    ensures r.Ok? ==> r.value == EncodedImage(CodecFor(format).value, Normalised(data.dtype, data.plane))
  {
    if data.ArrayN? {
      if WideUnsigned(data.dtype) && Product(data.shape) == 0 {
        return Err(EmptyReduction);
      }
      return Err(NotTwoDimensional);
    }
    var pixels := data.plane;
    if data.dtype != UInt8 {
      if WideUnsigned(data.dtype) {
        if pixels.IsEmpty() {
          return Err(EmptyReduction);
        }
        var top := MaxCell(pixels);
        pixels := MapCells(pixels, v => NormalisedSample(data.dtype, top, v));
      } else {
        pixels := MapCells(pixels, v => NormalisedSample(data.dtype, 0, v));
      }
    } else {
      NormalisedUInt8(pixels);
    }
    var codec;
    if format == "JPEG" {
      codec := Jpeg(85, true);
    } else if format == "PNG" {
      codec := Png(true);
    } else {
      return Err(UnsupportedFormat(format));
    }
    return Ok(EncodedImage(codec, pixels));
  }

  // ---------------------------------------------------------------------------
  // read_save_ims

  /** The loop over pivot_zyx: every coordinate inside its extent. */
  predicate PivotInBounds(pivot: (int, int, int), v: Volume) {
    && 0 <= pivot.0 < v.depth
    && 0 <= pivot.1 < v.height
    && 0 <= pivot.2 < v.width
  }

  /** The bounds pre-check loop, stopping at the first coordinate out of bounds. */
  method PreCheck(pivot: (int, int, int), v: Volume) returns (ok: bool)
    ensures ok <==> PivotInBounds(pivot, v)
  {
    var coords := [pivot.0, pivot.1, pivot.2];
    var shape := [v.depth, v.height, v.width];
    for i := 0 to 3
      invariant forall k :: 0 <= k < i ==> 0 <= coords[k] < shape[k]
    {
      if coords[i] < 0 || coords[i] >= shape[i] {
        return false;
      }
    }
    assert 0 <= coords[0] < shape[0] && 0 <= coords[1] < shape[1] && 0 <= coords[2] < shape[2];
    return true;
  }

  /**
   * The per-view tile, None for an unknown view name:
   * coronal data[z, y:y+ts, x:x+ts][::-1, ::-1],
   * sagittal data[z:z+ts, y:y+ts, x][:, ::-1].T,
   * horizontal data[z:z+ts, y, x:x+ts][::-1, ::-1].
   */
  function ExtractTile(v: Volume, view: string, z: int, y: int, x: int, ts: int): (r: Option<Result<Matrix, IndexError>>)
    ensures r.None? <==> view !in {"coronal", "sagittal", "horizontal"}
    ensures r.Some? && r.value.Ok? ==> r.value.value.Valid()
  {
    if view == "coronal" then
      Some(match ReadPlane(v, ZAxis, z, y, y + ts, x, x + ts)
        case Err(e) => Err(e)
        case Ok(p) => Ok(FlipRows(FlipCols(p))))
    else if view == "sagittal" then
      Some(match ReadPlane(v, XAxis, x, z, z + ts, y, y + ts)
        case Err(e) => Err(e)
        case Ok(p) => Ok(Transpose(FlipCols(p))))
    else if view == "horizontal" then
      Some(match ReadPlane(v, YAxis, y, z, z + ts, x, x + ts)
        case Err(e) => Err(e)
        case Ok(p) => Ok(FlipRows(FlipCols(p))))
    else None
  }

  /**
   * Coronal: with h, w the clipped lengths of [y, y+ts) and [x, x+ts),
   * tile[i][j] = data[z][y+h-1-i][x+w-1-j] (both in-plane axes reversed).
   */
  lemma CoronalTileAt(v: Volume, z: nat, y: nat, x: nat, ts: int, i: nat, j: nat)
    requires ExtractTile(v, "coronal", z, y, x, ts).Some? && ExtractTile(v, "coronal", z, y, x, ts).value.Ok?
    ensures var t := ExtractTile(v, "coronal", z, y, x, ts).value.value;
      && t.rows == SliceLen(y, y + ts, v.height) && t.cols == SliceLen(x, x + ts, v.width)
      && (i < t.rows && j < t.cols ==> t.cells[i][j] == v.at(z, y + t.rows - 1 - i, x + t.cols - 1 - j))
  {
    var p := ReadPlane(v, ZAxis, z, y, y + ts, x, x + ts).value;
    CoronalIsFlipped(v, z, y, x, ts);
    if i < p.rows && j < p.cols {
      CoronalPlaneAt(v, z, y, x, ts, p.rows - 1 - i, p.cols - 1 - j);
    }
  }

  /** The coronal branch: the (y, x) window at z with both axes reversed. */
  lemma CoronalIsFlipped(v: Volume, z: nat, y: nat, x: nat, ts: int)
    requires ReadPlane(v, ZAxis, z, y, y + ts, x, x + ts).Ok?
    ensures ExtractTile(v, "coronal", z, y, x, ts)
      == Some(Ok(FlipRows(FlipCols(ReadPlane(v, ZAxis, z, y, y + ts, x, x + ts).value))))
  {
  }

  /** Cell (a, b) of the unflipped coronal window is data[z][y+a][x+b]. */
  lemma CoronalPlaneAt(v: Volume, z: nat, y: nat, x: nat, ts: int, a: nat, b: nat)
    requires ReadPlane(v, ZAxis, z, y, y + ts, x, x + ts).Ok?
    requires a < ReadPlane(v, ZAxis, z, y, y + ts, x, x + ts).value.rows
    requires b < ReadPlane(v, ZAxis, z, y, y + ts, x, x + ts).value.cols
    ensures ReadPlane(v, ZAxis, z, y, y + ts, x, x + ts).value.cells[a][b] == v.at(z, y + a, x + b)
  {
    ReadPlaneAt(v, ZAxis, z, y, y + ts, x, x + ts, a, b);
  }

  /**
   * Horizontal: with nz, w the clipped lengths of [z, z+ts) and [x, x+ts),
   * tile[i][j] = data[z+nz-1-i][y][x+w-1-j].
   */
  lemma HorizontalTileAt(v: Volume, z: nat, y: nat, x: nat, ts: int, i: nat, j: nat)
    requires ExtractTile(v, "horizontal", z, y, x, ts).Some? && ExtractTile(v, "horizontal", z, y, x, ts).value.Ok?
    ensures var t := ExtractTile(v, "horizontal", z, y, x, ts).value.value;
      && t.rows == SliceLen(z, z + ts, v.depth) && t.cols == SliceLen(x, x + ts, v.width)
      && (i < t.rows && j < t.cols ==> t.cells[i][j] == v.at(z + t.rows - 1 - i, y, x + t.cols - 1 - j))
  {
    var p := ReadPlane(v, YAxis, y, z, z + ts, x, x + ts).value;
    HorizontalIsFlipped(v, z, y, x, ts);
    if i < p.rows && j < p.cols {
      HorizontalPlaneAt(v, z, y, x, ts, p.rows - 1 - i, p.cols - 1 - j);
    }
  }

  /** The horizontal branch: the (z, x) window at y with both axes reversed. */
  lemma HorizontalIsFlipped(v: Volume, z: nat, y: nat, x: nat, ts: int)
    requires ReadPlane(v, YAxis, y, z, z + ts, x, x + ts).Ok?
    ensures ExtractTile(v, "horizontal", z, y, x, ts)
      == Some(Ok(FlipRows(FlipCols(ReadPlane(v, YAxis, y, z, z + ts, x, x + ts).value))))
  {
  }

  /** Cell (a, b) of the unflipped horizontal window is data[z+a][y][x+b]. */
  lemma HorizontalPlaneAt(v: Volume, z: nat, y: nat, x: nat, ts: int, a: nat, b: nat)
    requires ReadPlane(v, YAxis, y, z, z + ts, x, x + ts).Ok?
    requires a < ReadPlane(v, YAxis, y, z, z + ts, x, x + ts).value.rows
    requires b < ReadPlane(v, YAxis, y, z, z + ts, x, x + ts).value.cols
    ensures ReadPlane(v, YAxis, y, z, z + ts, x, x + ts).value.cells[a][b] == v.at(z + a, y, x + b)
  {
    ReadPlaneAt(v, YAxis, y, z, z + ts, x, x + ts, a, b);
  }

  /**
   * Sagittal: the tile is (ny, nz), transposed from the (z, y) window, and
   * tile[i][j] = data[z+j][y+ny-1-i][x] (y reversed down the rows, z along the columns).
   */
  lemma SagittalTileAt(v: Volume, z: nat, y: nat, x: nat, ts: int, i: nat, j: nat)
    requires ExtractTile(v, "sagittal", z, y, x, ts).Some? && ExtractTile(v, "sagittal", z, y, x, ts).value.Ok?
    ensures var t := ExtractTile(v, "sagittal", z, y, x, ts).value.value;
      && t.rows == SliceLen(y, y + ts, v.height) && t.cols == SliceLen(z, z + ts, v.depth)
      && (i < t.rows && j < t.cols ==> t.cells[i][j] == v.at(z + j, y + t.rows - 1 - i, x))
  {
    var p := ReadPlane(v, XAxis, x, z, z + ts, y, y + ts).value;
    SagittalIsTransposed(v, z, y, x, ts);
    if i < p.cols && j < p.rows {
      TransposeAt(FlipCols(p), i, j);
      SagittalPlaneAt(v, z, y, x, ts, j, p.cols - 1 - i);
    }
  }

  /** The sagittal branch: the (z, y) window at x, y reversed, then transposed. */
  lemma SagittalIsTransposed(v: Volume, z: nat, y: nat, x: nat, ts: int)
    requires ReadPlane(v, XAxis, x, z, z + ts, y, y + ts).Ok?
    ensures ExtractTile(v, "sagittal", z, y, x, ts)
      == Some(Ok(Transpose(FlipCols(ReadPlane(v, XAxis, x, z, z + ts, y, y + ts).value))))
  {
  }

  /** Cell (a, b) of the untransposed sagittal window is data[z+a][y+b][x]. */
  lemma SagittalPlaneAt(v: Volume, z: nat, y: nat, x: nat, ts: int, a: nat, b: nat)
    requires ReadPlane(v, XAxis, x, z, z + ts, y, y + ts).Ok?
    requires a < ReadPlane(v, XAxis, x, z, z + ts, y, y + ts).value.rows
    requires b < ReadPlane(v, XAxis, x, z, z + ts, y, y + ts).value.cols
    ensures ReadPlane(v, XAxis, x, z, z + ts, y, y + ts).value.cells[a][b] == v.at(z + a, y + b, x)
  {
    ReadPlaneAt(v, XAxis, x, z, z + ts, y, y + ts, a, b);
  }

  /**
   * After the last row flip, a coronal tile runs down in increasing y and
   * right in decreasing x: saved[i][j] = data[z][y+i][x+w-1-j].
   */
  lemma CoronalSavedOrientation(v: Volume, z: nat, y: nat, x: nat, ts: int, i: nat, j: nat)
    requires ExtractTile(v, "coronal", z, y, x, ts).Some? && ExtractTile(v, "coronal", z, y, x, ts).value.Ok?
    ensures var t := ExtractTile(v, "coronal", z, y, x, ts).value.value;
      i < t.rows && j < t.cols ==> FlipRows(t).cells[i][j] == v.at(z, y + i, x + t.cols - 1 - j)
  {
    var t := ExtractTile(v, "coronal", z, y, x, ts).value.value;
    if i < t.rows && j < t.cols {
      CoronalTileAt(v, z, y, x, ts, t.rows - 1 - i, j);
    }
  }

  /** The dataset at the script's path, or None when it is missing or a group (both `return 1`). */
  function ScriptDataset(f: H5File, level: int, channel: int): Option<Volume> {
    var path := DataPath(level, channel);
    if path in f && f[path].Dataset? then Some(f[path].volume) else None
  }

  /**
   * read_save_ims after the dataset is found, with the coordinates the
   * pre-check compares against (Z, Y, X) given as `pivot`.
   */
  function FetchWith(v: Volume, pivot: (int, int, int), view: string, z: int, y: int, x: int, ts: int): Outcome {
    if !PivotInBounds(pivot, v) then ReturnedOne
    else match ExtractTile(v, view, z, y, x, ts)
      case None => ReturnedOne
      case Some(Err(IndexError(i, n))) => Raised(H5IndexError(i, n))
      case Some(Ok(tile)) =>
        if tile.IsEmpty() then Raised(EmptyReduction)   // np.min of an empty tile
        else Saved(EncodedImage(Jpeg(85, true), Normalised(v.dtype, FlipRows(tile))))
  }

  /** The script as written: pivot_zyx = (z, y, z). */
  function FetchAsWritten(image: Option<H5File>, view: string, level: int, channel: int,
                          z: int, y: int, x: int, ts: int): Outcome
  {
    if image.None? then ReturnedOne
    else match ScriptDataset(image.value, level, channel)
      case None => ReturnedOne
      case Some(v) => FetchWith(v, (z, y, z), view, z, y, x, ts)
  }

  /** The script with the evidently intended pre-check pivot_zyx = (z, y, x). */
  function Fetch(image: Option<H5File>, view: string, level: int, channel: int,
                 z: int, y: int, x: int, ts: int): Outcome
  {
    if image.None? then ReturnedOne
    else match ScriptDataset(image.value, level, channel)
      case None => ReturnedOne
      case Some(v) => FetchWith(v, (z, y, x), view, z, y, x, ts)
  }

  /** A dataset of shape (2, 2, 4) holding zeros, at level 0, channel 0. */
  function SmallFile(): H5File {
    map[DataPath(0, 0) := Dataset(Volume(UInt16, 2, 2, 4, (a: int, b: int, c: int) => 0))]
  }

  /**
   * As written, x is never checked: a sagittal request at x = 4 on a volume
   * only 4 wide passes the pre-check and then fails inside h5py.
   */
  lemma AsWrittenLetsXThrough()
    ensures FetchAsWritten(Some(SmallFile()), "sagittal", 0, 0, 0, 0, 4, 2) == Raised(H5IndexError(4, 4))
  {
    var v := SmallFile()[DataPath(0, 0)].volume;
    assert ScriptDataset(SmallFile(), 0, 0) == Some(v);
    assert PivotInBounds((0, 0, 0), v);
  }

  /**
   * As written, z is also compared with the X extent: a coronal request at
   * z = 3 on a (4, 4, 2) volume, whose Z extent is 4, is turned away.
   */
  lemma AsWrittenRejectsValidZ()
    ensures var f := map[DataPath(0, 0) := Dataset(Volume(UInt16, 4, 4, 2, (a: int, b: int, c: int) => 1))];
      && FetchAsWritten(Some(f), "coronal", 0, 0, 3, 0, 0, 2) == ReturnedOne
      && Fetch(Some(f), "coronal", 0, 0, 3, 0, 0, 2).Saved?
  {
    var f := map[DataPath(0, 0) := Dataset(Volume(UInt16, 4, 4, 2, (a: int, b: int, c: int) => 1))];
    var v := f[DataPath(0, 0)].volume;
    assert ScriptDataset(f, 0, 0) == Some(v);
    assert !PivotInBounds((3, 0, 3), v);
    assert PivotInBounds((3, 0, 0), v);
    var p := ReadPlane(v, ZAxis, 3, 0, 2, 0, 2).value;
    assert p.rows == 2 && p.cols == 2;
  }

  /**
   * With the pre-check on (z, y, x) and a positive tile size, a known view
   * never raises: the fixed index is in range and both windows are non-empty,
   * so the tile is saved.
   */
  lemma {:induction false} FetchNeverRaises(image: Option<H5File>, view: string, level: int, channel: int,
                                            z: int, y: int, x: int, ts: int)
    requires ts >= 1 && view in {"coronal", "sagittal", "horizontal"}
    requires image.Some? && ScriptDataset(image.value, level, channel).Some?
    requires PivotInBounds((z, y, x), ScriptDataset(image.value, level, channel).value)
    ensures Fetch(image, view, level, channel, z, y, x, ts).Saved?
  {
    var v := ScriptDataset(image.value, level, channel).value;
    ExtractedTileNonEmpty(v, view, z, y, x, ts);
  }

  /** With the pivot in bounds and ts >= 1, every known view cuts a non-empty tile without an index error. */
  lemma ExtractedTileNonEmpty(v: Volume, view: string, z: int, y: int, x: int, ts: int)
    requires ts >= 1 && view in {"coronal", "sagittal", "horizontal"} && PivotInBounds((z, y, x), v)
    ensures var r := ExtractTile(v, view, z, y, x, ts);
      r.Some? && r.value.Ok? && !r.value.value.IsEmpty()
  {
    assert SliceLen(z, z + ts, v.depth) >= 1;
    assert SliceLen(y, y + ts, v.height) >= 1;
    assert SliceLen(x, x + ts, v.width) >= 1;
    if view == "coronal" {
      CoronalIsFlipped(v, z, y, x, ts);
    } else if view == "sagittal" {
      SagittalIsTransposed(v, z, y, x, ts);
    } else {
      HorizontalIsFlipped(v, z, y, x, ts);
    }
  }

  /**
   * read_save_ims as written, with the pre-check on (z, y, z): missing file,
   * missing or non-dataset path, a pivot coordinate out of bounds or an
   * unknown view return 1; an h5py index error or an empty tile raise;
   * otherwise the row-flipped, normalised tile is encoded as JPEG at
   * quality 85.
   */
  method ReadSaveIms(image: Option<H5File>, view: string, level: int, channel: int,
                     z: int, y: int, x: int, ts: int) returns (o: Outcome)
    ensures o == FetchAsWritten(image, view, level, channel, z, y, x, ts)
  {
    if image.None? {
      return ReturnedOne;
    }
    var f := image.value;
    var path := DataPath(level, channel);
    if path !in f {
      return ReturnedOne;
    }
    var node := f[path];
    if !node.Dataset? {
      return ReturnedOne;
    }
    var dataset := node.volume;
    var ok := PreCheck((z, y, z), dataset);
    if !ok {
      return ReturnedOne;
    }
    var extracted := ExtractTile(dataset, view, z, y, x, ts);
    if extracted.None? {
      return ReturnedOne;
    }
    if extracted.value.Err? {
      var e := extracted.value.error;
      return Raised(H5IndexError(e.index, e.extent));
    }
    var tile := extracted.value.value;
    if tile.IsEmpty() {
      return Raised(EmptyReduction);
    }
    var flipped := FlipRows(tile);
    var bytes := ArrayToImageBytes(Array2(dataset.dtype, flipped), "JPEG");
    // a non-empty 2D tile and the JPEG format: the encoder is reached
    assert bytes.Ok?;
    return Saved(bytes.value);
  }
}
