/**
 * The backend's handler for Imaris (.ims) files: an object holding the open
 * HDF5 file and a metadata cache, with accessors for resolution levels,
 * channels, dataset shapes, whole 2D slices per view, tile-grid-indexed
 * zero-padded tiles, single voxels and the tile-grid size.
 */
module ImarisHandler {
  import opened Common
  import opened Text
  import opened Sorting
  import opened Matrices
  import opened Volumes

  /** The exceptions the handler raises or lets escape. */
  datatype Error =
    | FileNotFound                       // FileNotFoundError from open()
    | FileNotOpen                        // RuntimeError("File not open")
    | DataNotFound(level: int, channel: int) // ValueError for a missing dataset path
    | MissingKey(path: string)           // KeyError that no handler catches
    | NotAGroup(path: string)            // .keys() on something that is not a group
    | NotADataset(path: string)          // .shape or indexing on something that is not a dataset
    | InvalidLiteral(word: string)       // ValueError from int() on a member name
    | OutOfRange(index: int, extent: nat) // h5py IndexError for a slice index
    | CoordinatesOutOfBounds(x: int, y: int, z: int) // ValueError from the voxel accessor
    | NoChannels                         // ValueError("No channels found")

  /** A dataset shape (Z, Y, X). */
  type Shape = (nat, nat, nat)

  datatype Metadata = Metadata(
    filePath: string,
    fileSize: int,
    resolutionLevels: seq<int>,
    channels: seq<int>,
    shapes: map<int, Shape>,
    dataType: Option<DType>)

  const DataSetKey := "DataSet"
  const LevelPrefix := "ResolutionLevel"
  const ChannelPrefix := "Channel"

  function Min(a: int, b: int): int { if a <= b then a else b }

  // ---------------------------------------------------------------------------
  // Member discovery: "ResolutionLevel N" and "Channel N" keys

  /** A group member name as the file writes it: prefix, a space, the number. */
  function MemberKey(prefix: string, n: int): string {
    prefix + " " + IntToStr(n)
  }

  /**
   * The numbers of the keys that start with prefix, in key order, each read
   * by int() from the key's last word; the first unreadable one raises.
   */
  function NumberedKeys(keys: seq<string>, prefix: string): Result<seq<int>, Error>
    decreases |keys|
  {
    if keys == [] then Ok([])
    else
      match NumberedKeys(keys[..|keys| - 1], prefix)
      case Err(e) => Err(e)
      case Ok(ns) =>
        var key := keys[|keys| - 1];
        if !StartsWith(key, prefix) then Ok(ns)
        else match ParseInt(LastWord(key))
          case None => Err(InvalidLiteral(LastWord(key)))
          case Some(n) => Ok(ns + [n])
  }

  ghost predicate NumberedBy(keys: seq<string>, prefix: string, n: int) {
    exists k :: 0 <= k < |keys| && Names(keys[k], prefix, n)
  }

  ghost predicate HasBadKey(keys: seq<string>, prefix: string) {
    exists k :: 0 <= k < |keys| && StartsWith(keys[k], prefix) && ParseInt(LastWord(keys[k])).None?
  }

  /** Discovery fails exactly when some prefixed key has no number. */
  lemma {:induction false} NumberedKeysFails(keys: seq<string>, prefix: string)
    ensures NumberedKeys(keys, prefix).Err? <==> HasBadKey(keys, prefix)
    decreases |keys|
  {
    if keys != [] {
      var init := keys[..|keys| - 1];
      NumberedKeysFails(init, prefix);
      if NumberedKeys(init, prefix).Err? {
        var k :| 0 <= k < |init| && StartsWith(init[k], prefix) && ParseInt(LastWord(init[k])).None?;
        assert keys[k] == init[k];
      } else if HasBadKey(keys, prefix) {
        var k :| 0 <= k < |keys| && StartsWith(keys[k], prefix) && ParseInt(LastWord(keys[k])).None?;
        assert k == |keys| - 1;
      }
    }
  }

  /** Whether key is prefixed and its last word is the numeral of n. */
  predicate Names(key: string, prefix: string, n: int) {
    StartsWith(key, prefix) && ParseInt(LastWord(key)) == Some(n)
  }

  /** A number named by a key before the last one is named by keys. */
  lemma NumberedByFront(keys: seq<string>, prefix: string, n: int)
    requires keys != [] && NumberedBy(keys[..|keys| - 1], prefix, n)
    ensures NumberedBy(keys, prefix, n)
  {
    var init := keys[..|keys| - 1];
    var k :| 0 <= k < |init| && Names(init[k], prefix, n);
    assert keys[k] == init[k];
  }

  /** A number named by keys is named by a key before the last one, or by the last one. */
  lemma NumberedByCases(keys: seq<string>, prefix: string, n: int)
    requires keys != [] && NumberedBy(keys, prefix, n)
    ensures NumberedBy(keys[..|keys| - 1], prefix, n) || Names(keys[|keys| - 1], prefix, n)
  {
    var init := keys[..|keys| - 1];
    var k :| 0 <= k < |keys| && Names(keys[k], prefix, n);
    if k < |init| {
      assert init[k] == keys[k];
    }
  }

  /** A number is named by some key of keys exactly when it is named by a key before the last one, or by the last one. */
  lemma NumberedBySnoc(keys: seq<string>, prefix: string, n: int)
    requires keys != []
    ensures NumberedBy(keys, prefix, n) <==> (NumberedBy(keys[..|keys| - 1], prefix, n) || Names(keys[|keys| - 1], prefix, n))
  {
    if NumberedBy(keys[..|keys| - 1], prefix, n) {
      NumberedByFront(keys, prefix, n);
    }
    if NumberedBy(keys, prefix, n) {
      NumberedByCases(keys, prefix, n);
    }
    if Names(keys[|keys| - 1], prefix, n) {
      assert Names(keys[|keys| - 1], prefix, n);
    }
  }

  /** When discovery succeeds it finds exactly the numbers of the prefixed keys, and ignores the rest. */
  lemma {:induction false} NumberedKeysFinds(keys: seq<string>, prefix: string)
    ensures NumberedKeys(keys, prefix).Ok? ==>
      forall n :: n in NumberedKeys(keys, prefix).value <==> NumberedBy(keys, prefix, n)
    decreases |keys|
  {
    if keys != [] && NumberedKeys(keys, prefix).Ok? {
      var init, key := keys[..|keys| - 1], keys[|keys| - 1];
      var ns := NumberedKeys(init, prefix).value;
      var added := if StartsWith(key, prefix) then [ParseInt(LastWord(key)).value] else [];
      assert NumberedKeys(keys, prefix).value == ns + added;
      NumberedKeysFinds(init, prefix);
      forall n ensures n in ns + added <==> NumberedBy(keys, prefix, n) {
        NumberedBySnoc(keys, prefix, n);
      }
    }
  }

  /** A failure in a prefix of the keys is the failure of the whole scan. */
  lemma {:induction false} NumberedKeysErrSticks(keys: seq<string>, prefix: string, i: nat)
    requires i <= |keys| && NumberedKeys(keys[..i], prefix).Err?
    ensures NumberedKeys(keys, prefix) == NumberedKeys(keys[..i], prefix)
    decreases |keys| - i
  {
    if i < |keys| {
      assert keys[..i + 1][..i] == keys[..i];
      NumberedKeysErrSticks(keys, prefix, i + 1);
    } else {
      assert keys[..i] == keys;
    }
  }

  /** A key written as "prefix N" is read back as N. */
  lemma MemberKeyRoundTrip(prefix: string, n: int)
    ensures StartsWith(MemberKey(prefix, n), prefix)
    ensures ParseInt(LastWord(MemberKey(prefix, n))) == Some(n)
  {
    var digits := IntToStr(n);
    assert HasNoSpace(digits) by {
      if n < 0 {
        NatToStrDigits(-n);
        assert digits == "-" + NatToStr(-n);
        assert forall i :: 1 <= i < |digits| ==> digits[i] == NatToStr(-n)[i - 1];
      } else {
        NatToStrDigits(n);
      }
    }
    assert MemberKey(prefix, n) == (prefix + " ") + digits;
    LastWordAfterSpace(prefix + " ", digits);
    ParseIntOfIntToStr(n);
  }

  /** The loop over a group's members that collects the numbered ones. */
  method CollectNumbered(keys: seq<string>, prefix: string) returns (r: Result<seq<int>, Error>)
    ensures r == NumberedKeys(keys, prefix)
  {
    var numbers: seq<int> := [];
    for i := 0 to |keys|
      invariant NumberedKeys(keys[..i], prefix) == Ok(numbers)
    {
      var key := keys[i];
      assert keys[..i + 1][..i] == keys[..i];
      if StartsWith(key, prefix) {
        var word := LastWord(key);
        var n := ParseInt(word);
        if n.None? {
          NumberedKeysErrSticks(keys, prefix, i + 1);
          return Err(InvalidLiteral(word));
        }
        numbers := numbers + [n.value];
      }
    }
    assert keys[..|keys|] == keys;
    return Ok(numbers);
  }

  /** get_resolution_levels on an open file. */
  function LevelsIn(f: H5File): Result<seq<int>, Error> {
    if DataSetKey !in f then Ok([])
    else match f[DataSetKey]
      case Dataset(_) => Err(NotAGroup(DataSetKey))
      case Group(keys) =>
        match NumberedKeys(keys, LevelPrefix)
        case Err(e) => Err(e)
        case Ok(ns) => Ok(SortInts(ns))
  }

  /** get_channels on an open file: the channels of the lowest level's first time point. */
  function ChannelsIn(f: H5File): Result<seq<int>, Error> {
    match LevelsIn(f)
    case Err(e) => Err(e)
    case Ok(levels) =>
      if levels == [] then Ok([])
      else
        var path := TimePointPath(levels[0]);
        if path !in f then Err(MissingKey(path))
        else match f[path]
          case Dataset(_) => Err(NotAGroup(path))
          case Group(keys) =>
            match NumberedKeys(keys, ChannelPrefix)
            case Err(e) => Err(e)
            case Ok(ns) => Ok(SortInts(ns))
  }

  /**
   * Resolution levels: none without a DataSet group; otherwise ascending and
   * exactly the numbers of the "ResolutionLevel N" members.
   */
  lemma LevelsInSpec(f: H5File)
    ensures DataSetKey !in f ==> LevelsIn(f) == Ok([])
    ensures LevelsIn(f).Ok? ==>
      var ls := LevelsIn(f).value;
      && (forall i, j :: 0 <= i < j < |ls| ==> ls[i] <= ls[j])
      && (DataSetKey in f ==> f[DataSetKey].Group?)
      && (DataSetKey in f ==> forall n :: n in ls <==> NumberedBy(f[DataSetKey].keys, LevelPrefix, n))
  {
    if DataSetKey in f && f[DataSetKey].Group? {
      var keys := f[DataSetKey].keys;
      NumberedKeysFinds(keys, LevelPrefix);
      if NumberedKeys(keys, LevelPrefix).Ok? {
        var ns := NumberedKeys(keys, LevelPrefix).value;
        SortIntsAscending(ns);
        forall n ensures n in SortInts(ns) <==> n in ns {
          assert n in multiset(SortInts(ns)) <==> n in multiset(ns);
        }
      }
    }
  }

  /**
   * Channels: none when there are no levels; otherwise ascending and exactly
   * the "Channel N" members under the lowest level's "TimePoint 0".
   */
  lemma ChannelsInSpec(f: H5File)
    ensures LevelsIn(f) == Ok([]) ==> ChannelsIn(f) == Ok([])
    ensures ChannelsIn(f).Ok? && LevelsIn(f).Ok? && LevelsIn(f).value != [] ==>
      var path := TimePointPath(LevelsIn(f).value[0]);
      var cs := ChannelsIn(f).value;
      && path in f && f[path].Group?
      && (forall i, j :: 0 <= i < j < |cs| ==> cs[i] <= cs[j])
      && (forall n :: n in cs <==> NumberedBy(f[path].keys, ChannelPrefix, n))
  {
    if ChannelsIn(f).Ok? && LevelsIn(f).Ok? && LevelsIn(f).value != [] {
      var path := TimePointPath(LevelsIn(f).value[0]);
      var keys := f[path].keys;
      NumberedKeysFinds(keys, ChannelPrefix);
      var ns := NumberedKeys(keys, ChannelPrefix).value;
      SortIntsAscending(ns);
      forall n ensures n in SortInts(ns) <==> n in ns {
        assert n in multiset(SortInts(ns)) <==> n in multiset(ns);
      }
    }
  }

  // ---------------------------------------------------------------------------
  // Datasets, slices, tiles and voxels

  /** The dataset of (level, channel); a missing path is "Data not found". */
  function DatasetAt(f: H5File, level: int, channel: int): (r: Result<Volume, Error>)
    ensures r.Ok? <==> DataPath(level, channel) in f && f[DataPath(level, channel)].Dataset?
    ensures DataPath(level, channel) !in f ==> r == Err(DataNotFound(level, channel))
    ensures r.Ok? ==> r.value == f[DataPath(level, channel)].volume
  {
    var path := DataPath(level, channel);
    if path !in f then Err(DataNotFound(level, channel))
    else match f[path]
      case Group(_) => Err(NotADataset(path))
      case Dataset(v) => Ok(v)
  }

  function ShapeOf(v: Volume): Shape { (v.depth, v.height, v.width) }

  /** (height, width) of a view's whole plane: sagittal (Z, Y), coronal (Z, X), horizontal (Y, X). */
  function PlaneShape(v: Volume, view: View): (nat, nat) {
    match view
    case Sagittal => (v.depth, v.height)
    case Coronal => (v.depth, v.width)
    case Horizontal => (v.height, v.width)
  }

  /** The axis a view holds fixed: X for sagittal, Y for coronal, Z for horizontal. */
  function FixedAxis(view: View): Axis {
    match view
    case Sagittal => XAxis
    case Coronal => YAxis
    case Horizontal => ZAxis
  }

  /** get_slice on an open file: dataset[:, :, i], dataset[:, i, :] or dataset[i, :, :]. */
  function SliceOf(f: H5File, view: View, level: int, channel: int, sliceIdx: int): (r: Result<Matrix, Error>)
    ensures DatasetAt(f, level, channel).Err? ==> r == Err(DatasetAt(f, level, channel).error)
    ensures DatasetAt(f, level, channel).Ok? ==>
      var v := DatasetAt(f, level, channel).value;
      var n := Extent(v, FixedAxis(view));
      && (r.Ok? <==> -(n as int) <= sliceIdx < n)
      && (r.Err? ==> r.error == OutOfRange(sliceIdx, n))
      && (r.Ok? ==> r.value.Valid() && (r.value.rows, r.value.cols) == PlaneShape(v, view))
  {
    match DatasetAt(f, level, channel)
    case Err(e) => Err(e)
    case Ok(v) =>
      var plane := match view
        case Sagittal => ReadPlane(v, XAxis, sliceIdx, 0, v.depth, 0, v.height)
        case Coronal => ReadPlane(v, YAxis, sliceIdx, 0, v.depth, 0, v.width)
        case Horizontal => ReadPlane(v, ZAxis, sliceIdx, 0, v.height, 0, v.width);
      match plane
      case Err(IndexError(i, n)) => Err(OutOfRange(i, n))
      case Ok(m) => Ok(m)
  }

  /** Which voxel cell (i, j) of a view's slice shows, for an in-range index k >= 0. */
  function SliceVoxel(view: View, k: int, i: int, j: int): (int, int, int) {
    match view
    case Sagittal => (i, j, k)
    case Coronal => (i, k, j)
    case Horizontal => (k, i, j)
  }

  /** Cell (i, j) of a slice is the voxel with the view's fixed coordinate k and (i, j) on the others. */
  lemma SliceCell(f: H5File, view: View, level: int, channel: int, k: nat, i: nat, j: nat)
    requires SliceOf(f, view, level, channel, k).Ok?
    requires i < SliceOf(f, view, level, channel, k).value.rows
    requires j < SliceOf(f, view, level, channel, k).value.cols
    ensures var v := DatasetAt(f, level, channel).value;
      var (z, y, x) := SliceVoxel(view, k, i, j);
      SliceOf(f, view, level, channel, k).value.cells[i][j] == v.at(z, y, x)
  {
    var v := DatasetAt(f, level, channel).value;
    match view
    case Sagittal => ReadPlaneAt(v, XAxis, k, 0, v.depth, 0, v.height, i, j);
    case Coronal => ReadPlaneAt(v, YAxis, k, 0, v.depth, 0, v.width, i, j);
    case Horizontal => ReadPlaneAt(v, ZAxis, k, 0, v.height, 0, v.width, i, j);
  }

  /** padded_tile = zeros((ts, ts)); padded_tile[:h, :w] = tile, when the tile is short on either side. */
  function Pad(t: Matrix, ts: nat): (r: Matrix)
    requires t.Valid()
  {
    if t.rows < ts || t.cols < ts then
      Matrix(ts, ts,
        seq(ts, i requires 0 <= i < ts =>
          seq(ts, j requires 0 <= j < ts => if i < t.rows && j < t.cols then t.cells[i][j] else 0)))
    else t
  }

  /** The tile-grid-indexed window of get_tile, before padding. */
  function TileWindow(plane: Matrix, x: nat, y: nat, ts: nat): Matrix
    requires plane.Valid()
  {
    WindowFrom(plane, y * ts, x * ts, ts)
  }

  /** plane[yStart:min(yStart + ts, H), xStart:min(xStart + ts, W)] */
  function WindowFrom(plane: Matrix, yStart: nat, xStart: nat, ts: nat): (t: Matrix)
    requires plane.Valid()
    ensures t.Valid() && t.rows <= ts && t.cols <= ts
  {
    WindowLen(yStart, ts, plane.rows);
    WindowLen(xStart, ts, plane.cols);
    Window(plane, yStart, Min(yStart + ts, plane.rows), xStart, Min(xStart + ts, plane.cols))
  }

  /** s[start:min(start + ts, n)] has the elements of [start, start + ts) that are below n. */
  lemma WindowLen(start: nat, ts: nat, n: nat)
    ensures Clip(start, n) == Min(start, n)
    ensures SliceLen(start, Min(start + ts, n), n) == if start < n then Min(ts, n - start) else 0
  {
  }

  /** get_tile on a slice: the window clipped at the plane's edge, zero-padded to ts x ts. */
  function CutTile(plane: Matrix, x: nat, y: nat, ts: nat): Matrix
    requires plane.Valid()
  {
    Pad(TileWindow(plane, x, y, ts), ts)
  }

  /** Padding makes a ts x ts matrix that holds the tile's cells and zeros beyond them. */
  lemma PadCell(t: Matrix, ts: nat, i: nat, j: nat)
    requires t.Valid() && t.rows <= ts && t.cols <= ts && i < ts && j < ts
    ensures Pad(t, ts).Valid() && Pad(t, ts).rows == ts && Pad(t, ts).cols == ts
    ensures Pad(t, ts).cells[i][j] == if i < t.rows && j < t.cols then t.cells[i][j] else 0
  {
  }

  /** The window from (yStart, xStart) is clipped at the plane's edge and copies the plane's samples. */
  lemma WindowFromCell(plane: Matrix, yStart: nat, xStart: nat, ts: nat, i: nat, j: nat)
    requires plane.Valid() && i < ts && j < ts
    ensures var w := WindowFrom(plane, yStart, xStart, ts);
      && (i < w.rows <==> yStart + i < plane.rows)
      && (j < w.cols <==> xStart + j < plane.cols)
      && (i < w.rows && j < w.cols ==> w.cells[i][j] == plane.cells[yStart + i][xStart + j])
  {
    WindowLen(yStart, ts, plane.rows);
    WindowLen(xStart, ts, plane.cols);
  }

  /** The padded window from (yStart, xStart): the plane's sample where it exists, 0 elsewhere. */
  lemma PaddedWindowCell(plane: Matrix, yStart: nat, xStart: nat, ts: nat, i: nat, j: nat)
    requires plane.Valid() && i < ts && j < ts
    ensures var t := Pad(WindowFrom(plane, yStart, xStart, ts), ts);
      && t.Valid() && t.rows == ts && t.cols == ts
      && t.cells[i][j] ==
          if yStart + i < plane.rows && xStart + j < plane.cols
          then plane.cells[yStart + i][xStart + j] else 0
  {
    WindowFromCell(plane, yStart, xStart, ts, i, j);
    PadCell(WindowFrom(plane, yStart, xStart, ts), ts, i, j);
  }

  /**
   * A tile is exactly ts x ts; cell (i, j) is the slice sample at
   * (y*ts + i, x*ts + j) when that is inside the slice and 0 otherwise.
   */
  lemma TileCell(plane: Matrix, x: nat, y: nat, ts: nat, i: nat, j: nat)
    requires plane.Valid() && i < ts && j < ts
    ensures var t := CutTile(plane, x, y, ts);
      && t.Valid() && t.rows == ts && t.cols == ts
      && t.cells[i][j] ==
          if y * ts + i < plane.rows && x * ts + j < plane.cols
          then plane.cells[y * ts + i][x * ts + j] else 0
  {
    CutTileStarts(plane, x, y, ts);
    PaddedWindowCell(plane, y * ts, x * ts, ts, i, j);
  }

  /** Tile (x, y) is the padded window that starts at row y * ts and column x * ts. */
  lemma CutTileStarts(plane: Matrix, x: nat, y: nat, ts: nat)
    requires plane.Valid()
    ensures CutTile(plane, x, y, ts) == Pad(WindowFrom(plane, y * ts, x * ts, ts), ts)
  {
  }

  /** TileCell for every cell of the tile. */
  lemma TileCells(plane: Matrix, x: nat, y: nat, ts: nat)
    requires plane.Valid() && ts >= 1
    ensures var t := CutTile(plane, x, y, ts);
      && t.Valid() && t.rows == ts && t.cols == ts
      && forall i, j :: 0 <= i < ts && 0 <= j < ts ==>
        t.cells[i][j] ==
          if y * ts + i < plane.rows && x * ts + j < plane.cols
          then plane.cells[y * ts + i][x * ts + j] else 0
  {
    TileCell(plane, x, y, ts, 0, 0);
    forall i, j | 0 <= i < ts && 0 <= j < ts
      ensures CutTile(plane, x, y, ts).cells[i][j] ==
          if y * ts + i < plane.rows && x * ts + j < plane.cols
          then plane.cells[y * ts + i][x * ts + j] else 0
    {
      TileCell(plane, x, y, ts, i, j);
    }
  }

  /** A window that starts at or past the slice's edge is all zeros. */
  lemma TileBeyondEdge(plane: Matrix, x: nat, y: nat, ts: nat)
    requires plane.Valid() && ts >= 1
    requires x * ts >= plane.cols || y * ts >= plane.rows
    ensures forall i, j :: 0 <= i < ts && 0 <= j < ts ==> CutTile(plane, x, y, ts).cells[i][j] == 0
  {
    TileCells(plane, x, y, ts);
  }

  /** get_pixel_value_at_coordinate on an open file: dataset[z, y, x] for an in-bounds (z, y, x). */
  function VoxelOf(f: H5File, level: int, channel: int, x: int, y: int, z: int): (r: Result<int, Error>)
    ensures r.Ok? <==> (DatasetAt(f, level, channel).Ok? &&
      var v := DatasetAt(f, level, channel).value; 0 <= z < v.depth && 0 <= y < v.height && 0 <= x < v.width)
    ensures r.Ok? ==> r.value == DatasetAt(f, level, channel).value.at(z, y, x)
    ensures DatasetAt(f, level, channel).Ok? && r.Err? ==> r.error == CoordinatesOutOfBounds(x, y, z)
  {
    match DatasetAt(f, level, channel)
    case Err(e) => Err(e)
    case Ok(v) =>
      if 0 <= z < v.depth && 0 <= y < v.height && 0 <= x < v.width then Ok(v.at(z, y, x))
      else Err(CoordinatesOutOfBounds(x, y, z))
  }

  /** The voxel accessor and the three slices through a voxel agree on its value. */
  lemma VoxelInSlices(f: H5File, level: int, channel: int, x: nat, y: nat, z: nat)
    requires VoxelOf(f, level, channel, x, y, z).Ok?
    ensures SliceOf(f, Sagittal, level, channel, x).value.cells[z][y] == VoxelOf(f, level, channel, x, y, z).value
    ensures SliceOf(f, Coronal, level, channel, y).value.cells[z][x] == VoxelOf(f, level, channel, x, y, z).value
    ensures SliceOf(f, Horizontal, level, channel, z).value.cells[y][x] == VoxelOf(f, level, channel, x, y, z).value
  {
    SliceCell(f, Sagittal, level, channel, x, z, y);
    SliceCell(f, Coronal, level, channel, y, z, x);
    SliceCell(f, Horizontal, level, channel, z, y, x);
  }

  // ---------------------------------------------------------------------------
  // Tile grid

  /** (n + ts - 1) // ts */
  function CeilDiv(n: nat, ts: nat): (q: nat)
    requires ts >= 1
  {
    (n + ts - 1) / ts
  }

  /** The ceiling division is the fewest tiles of size ts that cover n. */
  lemma CeilDivCovers(n: nat, ts: nat)
    requires ts >= 1
    ensures CeilDiv(n, ts) * ts >= n
    ensures CeilDiv(n, ts) == 0 || (CeilDiv(n, ts) - 1) * ts < n
  {
    var q, r := (n + ts - 1) / ts, (n + ts - 1) % ts;
    assert n + ts - 1 == q * ts + r;
  }

  /** calculate_tile_grid_size on an open file: (tiles_x, tiles_y) of channel 0's plane. */
  function TileGridOf(f: H5File, view: View, level: int, ts: nat): Result<(nat, nat), Error>
    requires ts >= 1
  {
    match ChannelsIn(f)
    case Err(e) => Err(e)
    case Ok(channels) =>
      if channels == [] then Err(NoChannels)
      else match DatasetAt(f, level, channels[0])
        case Err(e) => Err(e)
        case Ok(v) =>
          var shape := ShapeOf(v);
          var (height, width) := match view
            case Sagittal => (shape.0, shape.1)
            case Coronal => (shape.0, shape.2)
            case Horizontal => (shape.1, shape.2);
          Ok((CeilDiv(width, ts), CeilDiv(height, ts)))
  }

  /** Euclidean division splits an index into a tile number and an offset in the tile. */
  lemma TileOfIndex(i: nat, n: nat, ts: nat)
    requires ts >= 1 && i < n
    ensures i / ts < CeilDiv(n, ts)
    ensures (i / ts) * ts + i % ts == i && i % ts < ts
  {
    var q, c := i / ts, (n + ts - 1) / ts;
    assert i == q * ts + i % ts;
    assert n + ts - 1 == c * ts + (n + ts - 1) % ts;
    if c <= q {
      MulLe(c, q, ts);
      assert false;
    }
  }

  /**
   * The tiles of a CeilDiv grid cover every sample of a plane: sample (r, c)
   * is cell (r % ts, c % ts) of tile (c / ts, r / ts), which lies in the grid.
   */
  lemma {:induction false} TilesCoverPlane(p: Matrix, ts: nat, r: nat, c: nat)
    requires p.Valid() && ts >= 1 && r < p.rows && c < p.cols
    ensures c / ts < CeilDiv(p.cols, ts) && r / ts < CeilDiv(p.rows, ts)
    ensures CutTile(p, c / ts, r / ts, ts).cells[r % ts][c % ts] == p.cells[r][c]
  {
    TileOfIndex(r, p.rows, ts);
    TileOfIndex(c, p.cols, ts);
    TileCell(p, c / ts, r / ts, ts, r % ts, c % ts);
  }

  /**
   * The grid is sized on the same (height, width) that get_slice cuts for the
   * first channel, so (with TilesCoverPlane) its tiles cover every such slice.
   */
  lemma TileGridMatchesSlice(f: H5File, view: View, level: int, ts: nat, k: int)
    requires ts >= 1 && TileGridOf(f, view, level, ts).Ok?
    requires SliceOf(f, view, level, ChannelsIn(f).value[0], k).Ok?
    ensures var p := SliceOf(f, view, level, ChannelsIn(f).value[0], k).value;
      TileGridOf(f, view, level, ts).value == (CeilDiv(p.cols, ts), CeilDiv(p.rows, ts))
  {
  }

  // ---------------------------------------------------------------------------
  // Metadata

  /**
   * The shapes loop of get_metadata over the levels so far: each level whose
   * dataset for `channel` can be read gets its shape; the data type is taken
   * from the first such level; failures are logged and skipped.
   */
  function ShapeScan(f: H5File, levels: seq<int>, channel: int): (map<int, Shape>, Option<DType>)
    decreases |levels|
  {
    if levels == [] then (map[], None)
    else
      var (shapes, dataType) := ShapeScan(f, levels[..|levels| - 1], channel);
      var level := levels[|levels| - 1];
      match DatasetAt(f, level, channel)
      case Err(_) => (shapes, dataType)
      case Ok(v) => (shapes[level := ShapeOf(v)], if dataType.None? then Some(v.dtype) else dataType)
  }

  ghost predicate Readable(f: H5File, level: int, channel: int) {
    DatasetAt(f, level, channel).Ok?
  }

  /**
   * The shapes are keyed by exactly the readable levels, each with its own
   * dataset's shape; the data type is that of the first readable level.
   */
  lemma {:induction false} ShapeScanShapes(f: H5File, levels: seq<int>, channel: int)
    ensures var shapes := ShapeScan(f, levels, channel).0;
      && (forall l :: l in shapes <==> l in levels && Readable(f, l, channel))
      && (forall l :: l in shapes ==> shapes[l] == ShapeOf(DatasetAt(f, l, channel).value))
    decreases |levels|
  {
    if levels != [] {
      var init := levels[..|levels| - 1];
      ShapeScanShapes(f, init, channel);
      assert levels == init + [levels[|levels| - 1]];
    }
  }

  /** Index of the first level whose dataset can be read, if any. */
  ghost predicate FirstReadable(f: H5File, levels: seq<int>, channel: int, i: int) {
    && 0 <= i < |levels| && Readable(f, levels[i], channel)
    && forall j :: 0 <= j < i ==> !Readable(f, levels[j], channel)
  }

  /** One more level sets the data type only when none was found before and the new level is readable. */
  lemma ShapeScanTypeSnoc(f: H5File, levels: seq<int>, channel: int)
    requires levels != []
    ensures var last, before := levels[|levels| - 1], ShapeScan(f, levels[..|levels| - 1], channel).1;
      ShapeScan(f, levels, channel).1 ==
        if Readable(f, last, channel) && before.None? then Some(DatasetAt(f, last, channel).value.dtype) else before
  {
  }

  /** No data type is recorded only when no level is readable. */
  lemma {:induction false} ShapeScanNoType(f: H5File, levels: seq<int>, channel: int)
    ensures ShapeScan(f, levels, channel).1.None? ==> forall i :: 0 <= i < |levels| ==> !Readable(f, levels[i], channel)
    decreases |levels|
  {
    if levels != [] && ShapeScan(f, levels, channel).1.None? {
      var init := levels[..|levels| - 1];
      ShapeScanTypeSnoc(f, levels, channel);
      ShapeScanNoType(f, init, channel);
      forall i | 0 <= i < |levels| ensures !Readable(f, levels[i], channel) {
        if i < |init| {
          assert levels[i] == init[i];
        }
      }
    }
  }

  /** The data type recorded is that of the first readable level. */
  lemma {:induction false} ShapeScanFirstType(f: H5File, levels: seq<int>, channel: int)
    ensures var dataType := ShapeScan(f, levels, channel).1;
      dataType.Some? ==>
        exists i :: FirstReadable(f, levels, channel, i) && dataType.value == DatasetAt(f, levels[i], channel).value.dtype
    decreases |levels|
  {
    if levels != [] {
      var init := levels[..|levels| - 1];
      var before := ShapeScan(f, init, channel).1;
      ShapeScanTypeSnoc(f, levels, channel);
      if before.Some? {
        ShapeScanFirstType(f, init, channel);
        var i :| FirstReadable(f, init, channel, i) && before.value == DatasetAt(f, init[i], channel).value.dtype;
        assert forall j :: 0 <= j <= i ==> init[j] == levels[j];
        assert FirstReadable(f, levels, channel, i);
      } else if Readable(f, levels[|levels| - 1], channel) {
        ShapeScanNoType(f, init, channel);
        assert forall j :: 0 <= j < |init| ==> init[j] == levels[j];
        assert FirstReadable(f, levels, channel, |levels| - 1);
      }
    }
  }

  /** get_metadata computed afresh on an open file whose size on disk is fileSize. */
  function MetadataOf(path: string, fileSize: int, f: H5File): Result<Metadata, Error> {
    match LevelsIn(f)
    case Err(e) => Err(e)
    case Ok(levels) =>
      match ChannelsIn(f)
      case Err(e) => Err(e)
      case Ok(channels) =>
        var (shapes, dataType) :=
          if levels != [] && channels != [] then ShapeScan(f, levels, channels[0]) else (map[], None);
        Ok(Metadata(path, fileSize, levels, channels, shapes, dataType))
  }

  /** Copies a short tile into the top-left corner of a zero-filled ts x ts buffer. */
  method PadTile(t: Matrix, ts: nat) returns (r: Matrix)
    requires t.Valid() && t.rows <= ts && t.cols <= ts
    ensures r == Pad(t, ts)
    ensures r.Valid() && r.rows == ts && r.cols == ts
  {
    var padded := new int[ts, ts]((i, j) => 0);
    for i := 0 to t.rows
      invariant forall a, b :: 0 <= a < ts && 0 <= b < ts ==>
        padded[a, b] == if a < i && b < t.cols then t.cells[a][b] else 0
    {
      for j := 0 to t.cols
        invariant forall a, b :: 0 <= a < ts && 0 <= b < ts ==>
          padded[a, b] == if (a < i && b < t.cols) || (a == i && b < j) then t.cells[a][b] else 0
      {
        padded[i, j] := t.cells[i][j];
      }
    }
    r := Matrix(ts, ts,
      seq(ts, a requires 0 <= a < ts reads padded =>
        seq(ts, b requires 0 <= b < ts reads padded => padded[a, b])));
    assert forall a :: 0 <= a < ts ==> r.cells[a] == Pad(t, ts).cells[a];
  }

  // ---------------------------------------------------------------------------
  // The handler object

  class Handler {
    const filePath: string
    var file: Option<H5File>
    var metadata: Option<Metadata>

    constructor (path: string)
      ensures filePath == path && file == None && metadata == None
    {
      filePath := path;
      file := None;
      metadata := None;
    }

    predicate IsOpen()
      reads this
    {
      file.Some?
    }

    /** open(): onDisk is what h5py finds at filePath, None when the file does not exist. */
    method Open(onDisk: Option<H5File>) returns (r: Result<(), Error>)
      modifies this`file
      ensures onDisk.None? ==> r == Err(FileNotFound) && file == old(file)
      ensures onDisk.Some? ==> r == Ok(()) && file == onDisk
    {
      if onDisk.None? {
        return Err(FileNotFound);
      }
      file := onDisk;
      return Ok(());
    }

    /** close(): a no-op when already closed; the metadata cache is kept. */
    method Close()
      modifies this`file
      ensures file == None
    {
      if file.Some? {
        file := None;
      }
    }

    method GetResolutionLevels() returns (r: Result<seq<int>, Error>)
      ensures file.None? ==> r == Err(FileNotOpen)
      ensures file.Some? ==> r == LevelsIn(file.value)
    {
      if file.None? {
        return Err(FileNotOpen);
      }
      var f := file.value;
      if DataSetKey !in f {
        return Ok([]);
      }
      var group := f[DataSetKey];
      if group.Dataset? {
        return Err(NotAGroup(DataSetKey));
      }
      var levels :- CollectNumbered(group.keys, LevelPrefix);
      return Ok(SortInts(levels));
    }

    method GetChannels() returns (r: Result<seq<int>, Error>)
      ensures file.None? ==> r == Err(FileNotOpen)
      ensures file.Some? ==> r == ChannelsIn(file.value)
    {
      var levels :- GetResolutionLevels();
      var f := file.value;
      if levels == [] {
        return Ok([]);
      }
      var path := TimePointPath(levels[0]);
      if path !in f {
        return Err(MissingKey(path));
      }
      var group := f[path];
      if group.Dataset? {
        return Err(NotAGroup(path));
      }
      var channels :- CollectNumbered(group.keys, ChannelPrefix);
      return Ok(SortInts(channels));
    }

    function GetDataShape(level: int, channel: int): (r: Result<Shape, Error>)
      reads this
      ensures file.None? ==> r == Err(FileNotOpen)
      ensures r.Ok? <==> file.Some? && DatasetAt(file.value, level, channel).Ok?
      ensures r.Ok? ==> r.value == ShapeOf(DatasetAt(file.value, level, channel).value)
    {
      if file.None? then Err(FileNotOpen)
      else match DatasetAt(file.value, level, channel)
        case Err(e) => Err(e)
        case Ok(v) => Ok(ShapeOf(v))
    }

    function GetSlice(view: View, level: int, channel: int, sliceIdx: int): (r: Result<Matrix, Error>)
      reads this
      ensures file.None? ==> r == Err(FileNotOpen)
      ensures file.Some? ==> r == SliceOf(file.value, view, level, channel, sliceIdx)
    {
      if file.None? then Err(FileNotOpen) else SliceOf(file.value, view, level, channel, sliceIdx)
    }

    /** get_tile(view, level, channel, z, x, y, tile_size): z is the slice index for every view. */
    method GetTile(view: View, level: int, channel: int, z: int, x: nat, y: nat, tileSize: nat)
      returns (r: Result<Matrix, Error>)
      requires tileSize >= 1
      ensures file.None? ==> r == Err(FileNotOpen)
      ensures file.Some? ==> (r ==
        match SliceOf(file.value, view, level, channel, z)
        case Err(e) => Err(e)
        case Ok(plane) => Ok(CutTile(plane, x, y, tileSize)))
    {
      var plane :- GetSlice(view, level, channel, z);
      var tile := TileWindow(plane, x, y, tileSize);
      if tile.rows < tileSize || tile.cols < tileSize {
        tile := PadTile(tile, tileSize);
      }
      return Ok(tile);
    }

    /** get_metadata(): computed on the first successful call, then served from the cache. */
    method GetMetadata(fileSize: int) returns (r: Result<Metadata, Error>)
      modifies this`metadata
      ensures file.None? ==> r == Err(FileNotOpen) && metadata == old(metadata)
      ensures file.Some? && old(metadata).Some? ==> r == Ok(old(metadata).value) && metadata == old(metadata)
      ensures file.Some? && old(metadata).None? ==>
        && r == MetadataOf(filePath, fileSize, file.value)
        && metadata == (if r.Ok? then Some(r.value) else None)
    {
      if file.None? {
        return Err(FileNotOpen);
      }
      if metadata.Some? {
        return Ok(metadata.value);
      }
      var levels :- GetResolutionLevels();
      var channels :- GetChannels();
      var shapes: map<int, Shape> := map[];
      var dataType: Option<DType> := None;
      if levels != [] && channels != [] {
        shapes, dataType := ScanShapes(levels, channels[0]);
      }
      var m := Metadata(filePath, fileSize, levels, channels, shapes, dataType);
      metadata := Some(m);
      return Ok(m);
    }

    /** The loop of get_metadata over the levels, probing channel `channel` of each. */
    method ScanShapes(levels: seq<int>, channel: int) returns (shapes: map<int, Shape>, dataType: Option<DType>)
      requires file.Some?
      ensures (shapes, dataType) == ShapeScan(file.value, levels, channel)
    {
      shapes, dataType := map[], None;
      for i := 0 to |levels|
        invariant (shapes, dataType) == ShapeScan(file.value, levels[..i], channel)
      {
        assert levels[..i + 1][..i] == levels[..i];
        var level := levels[i];
        var shape := GetDataShape(level, channel);
        if shape.Ok? {
          shapes := shapes[level := shape.value];
          if dataType.None? {
            dataType := Some(DatasetAt(file.value, level, channel).value.dtype);
          }
        }
      }
      assert levels[..|levels|] == levels;
    }

    function GetPixelValueAtCoordinate(level: int, channel: int, x: int, y: int, z: int): (r: Result<int, Error>)
      reads this
      ensures file.None? ==> r == Err(FileNotOpen)
      ensures file.Some? ==> r == VoxelOf(file.value, level, channel, x, y, z)
    {
      if file.None? then Err(FileNotOpen) else VoxelOf(file.value, level, channel, x, y, z)
    }

    method CalculateTileGridSize(view: View, level: int, tileSize: nat) returns (r: Result<(nat, nat), Error>)
      requires tileSize >= 1
      ensures file.None? ==> r == Err(FileNotOpen)
      ensures file.Some? ==> r == TileGridOf(file.value, view, level, tileSize)
    {
      var channels :- GetChannels();
      if channels == [] {
        return Err(NoChannels);
      }
      var shape :- GetDataShape(level, channels[0]);
      var height, width;
      match view {
        case Sagittal => height, width := shape.0, shape.1;
        case Coronal => height, width := shape.0, shape.2;
        case Horizontal => height, width := shape.1, shape.2;
      }
      var tilesX := CeilDiv(width, tileSize);
      var tilesY := CeilDiv(height, tileSize);
      return Ok((tilesX, tilesY));
    }
  }
}
