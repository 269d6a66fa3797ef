# VISoR viewer core, modelled in Dafny

This project models the index arithmetic and the small state machines of the
VISoR brain-image viewer:

- **ImarisHandler** (`imaris_handler.dfy`): the back end's reader for Imaris
  (`.ims`) HDF5 files. It discovers resolution levels and channels from
  group keys, and gives data shapes. It extracts 2D slices per view and
  tiles on a tile grid, clipped at the edge and zero-padded. It reads single
  voxels, sizes the tile grid, and caches the metadata. The handler's
  open/close state and its metadata cache are a `class`.
- **FetchImageH5py** (`fetch_image_h5py.dfy`): the developer script that cuts
  one tile straight from the file. It runs a bounds pre-check. Each view's
  window starts at the given voxel. Axes are reversed or transposed and a
  last row flip is applied. The 8-bit normalisation runs before encoding.
- **VisorStore** (`visor_store.dfy`): the front end's viewer store. It holds
  clamped slice, zoom and opacity setters, guarded channel and level
  setters, cursor-driven slice synchronisation, the toggles, and
  per-channel display settings. The store is a `class`, and each action is
  proved against a transition function on a `StoreState` record.
- **I18n** (`i18n.dfy`): the front end's dotted-key translation lookup. It
  falls back to English, and then to the key itself.
- **ConvertRegions** (`convert_regions.dfy`): the row loop of the
  region-table converter. It builds the region list, the three-level
  hierarchy with duplicate-free leaf lists, and the value lookup table.
- **BenchmarkTiles** (`benchmark_tiles.dfy`): the tile-API benchmark's
  request planning (random start, then z, rows and columns in tile steps).
  Also its latency percentile, and the split of results into successes and
  errors.

Shared modules:

- `Common`: Option and Result.
- `Text`: Python's `str(int)`/`int(str)`, `split()[-1]`, and JavaScript's
  `split('.')` with its inverse `Join`.
- `Sorting`: `sorted()` as an insertion sort.
- `Matrices`: 2D arrays, Python slice clipping, `[::-1]`, `.T` and `max()`.
- `Volumes`: Z×Y×X datasets, an HDF5 file as a map from paths to groups and
  datasets, and h5py's integer indexing.

The HDF5 file is a `map` from object paths (`DataSet/ResolutionLevel 0/…`)
to groups (their key lists) and datasets. A dataset is its dtype, its shape
(Z, Y, X) and a function giving the sample at each voxel. Exceptions become
`Err` values of a `Result`, and `return 1` in the script becomes its own
outcome. Loops in the source are `for` loops here, each with the invariant
that ties it to a specification function. The whole-file properties are
lemmas about those functions.

## Model

| member | source | states |
|---|---|---|
| ImarisHandler.Handler.constructor | backend/app/services/imaris_handler.py:18-22 | a new handler holds the path, no open file and no cached metadata |
| ImarisHandler.Handler.Open | backend/app/services/imaris_handler.py:33-43 | a missing file fails with FileNotFound and leaves the state alone; otherwise the file is open |
| ImarisHandler.Handler.Close | backend/app/services/imaris_handler.py:45-54 | after close no file is open, whether or not one was |
| ImarisHandler.NumberedKeysFails | backend/app/services/imaris_handler.py:64-67 | the key scan fails if and only if a prefixed key's last word does not parse as an int |
| ImarisHandler.NumberedKeysFinds | backend/app/services/imaris_handler.py:64-67 | on success, n is collected exactly when some key starting with the prefix has last word str(n) (other keys are ignored) |
| ImarisHandler.NumberedKeysErrSticks | backend/app/services/imaris_handler.py:64-67 | once a bad key is met, the scan's error is the error of the whole key list |
| ImarisHandler.MemberKeyRoundTrip | backend/app/services/imaris_handler.py:66 | the key "Prefix n" starts with the prefix and its last word parses back to n |
| ImarisHandler.CollectNumbered | backend/app/services/imaris_handler.py:61-67 | the loop appending parsed numbers returns exactly the specification's result, error included |
| ImarisHandler.LevelsInSpec | backend/app/services/imaris_handler.py:61-69 | no DataSet group gives []; otherwise the levels are sorted ascending and are exactly the numbers of the "ResolutionLevel" keys |
| ImarisHandler.ChannelsInSpec | backend/app/services/imaris_handler.py:76-86 | no levels gives []; otherwise the channels are sorted and are exactly the "Channel" numbers under the lowest level's TimePoint 0 |
| ImarisHandler.Handler.GetResolutionLevels | backend/app/services/imaris_handler.py:56-69 | "File not open" when closed, otherwise the sorted level numbers |
| ImarisHandler.Handler.GetChannels | backend/app/services/imaris_handler.py:71-86 | "File not open" when closed, otherwise the sorted channel numbers |
| ImarisHandler.DatasetAt | backend/app/services/imaris_handler.py:93-98 | succeeds exactly when the level/channel path names a dataset; a missing path is DataNotFound(level, channel) |
| ImarisHandler.Handler.GetDataShape | backend/app/services/imaris_handler.py:88-98 | "File not open" when closed; succeeds exactly when the dataset exists, with its (z, y, x) shape |
| ImarisHandler.SliceOf | backend/app/services/imaris_handler.py:105-128 | a missing dataset is an error; the slice index is valid iff it lies in [-n, n) for the fixed axis; sagittal gives a (z, y) plane, coronal (z, x) and horizontal (y, x) |
| ImarisHandler.SliceCell | backend/app/services/imaris_handler.py:113-121 | cell (i, j) of a sagittal slice k is data[i][j][k], coronal data[i][k][j], horizontal data[k][i][j] |
| ImarisHandler.Handler.GetSlice | backend/app/services/imaris_handler.py:100-128 | "File not open" when closed, otherwise the slice above |
| ImarisHandler.TileCell | backend/app/services/imaris_handler.py:143-157 | a tile is exactly ts×ts, and cell (i, j) is plane[y·ts+i][x·ts+j] inside the plane and 0 outside it |
| ImarisHandler.TileCells | backend/app/services/imaris_handler.py:143-157 | the same for all cells of the tile at once |
| ImarisHandler.TileBeyondEdge | backend/app/services/imaris_handler.py:143-157 | a tile starting past the plane's edge is all zeros |
| ImarisHandler.PadTile | backend/app/services/imaris_handler.py:151-155 | writing the clipped window into a zero buffer gives the padded tile, of shape ts×ts |
| ImarisHandler.Handler.GetTile | backend/app/services/imaris_handler.py:130-157 | "File not open" when closed; the slice's error if it fails; otherwise the clipped, zero-padded tile at grid position (x, y) |
| ImarisHandler.TilesCoverPlane | backend/app/services/imaris_handler.py:143-157 | every plane cell (r, c) lies in the grid's tile (c/ts, r/ts), at offset (r%ts, c%ts), and that tile reproduces it |
| ImarisHandler.CeilDivCovers | backend/app/services/imaris_handler.py:254-255 | (n+ts-1)//ts tiles of size ts cover n, and one fewer does not |
| ImarisHandler.TileOfIndex | backend/app/services/imaris_handler.py:254-255 | every index below n falls in one of the (n+ts-1)//ts tiles |
| ImarisHandler.TileGridMatchesSlice | backend/app/services/imaris_handler.py:237-257 | the grid size is (ceil(width/ts), ceil(height/ts)) of the first channel's slice plane of that view |
| ImarisHandler.Handler.CalculateTileGridSize | backend/app/services/imaris_handler.py:230-257 | "File not open" when closed; otherwise the grid of the specification, with "No channels found" and a missing dataset as errors |
| ImarisHandler.VoxelOf | backend/app/services/imaris_handler.py:216-228 | a voxel is read iff the dataset exists and 0≤z<Z, 0≤y<Y, 0≤x<X; the value is data[z][y][x]; otherwise CoordinatesOutOfBounds |
| ImarisHandler.VoxelInSlices | backend/app/services/imaris_handler.py:113-121 | a voxel read directly equals its cell in the sagittal, coronal and horizontal slices through it |
| ImarisHandler.Handler.GetPixelValueAtCoordinate | backend/app/services/imaris_handler.py:210-228 | "File not open" when closed, otherwise the voxel lookup above |
| ImarisHandler.ShapeScanShapes | backend/app/services/imaris_handler.py:178-183 | the shapes map has exactly the levels whose first-channel dataset exists, each with its shape |
| ImarisHandler.ShapeScanNoType | backend/app/services/imaris_handler.py:184-191 | no data type means that no level's dataset could be read |
| ImarisHandler.ShapeScanFirstType | backend/app/services/imaris_handler.py:184-188 | the data type is that of the first level whose dataset could be read |
| ImarisHandler.Handler.ScanShapes | backend/app/services/imaris_handler.py:178-191 | the loop over levels returns exactly the shapes map and data type of the specification |
| ImarisHandler.Handler.GetMetadata | backend/app/services/imaris_handler.py:159-195 | "File not open" when closed; a cached result is returned unchanged; otherwise metadata is computed, and cached when it succeeds |
| FetchImageH5py.NormalisedUInt8 | backend/dev_script/fetch_image_h5py.py:20 | a uint8 array passes through unchanged |
| FetchImageH5py.Normalised | backend/dev_script/fetch_image_h5py.py:19-31 | normalisation keeps the shape and maps every sample by the dtype's rule |
| FetchImageH5py.NormalisedInByteRange | backend/dev_script/fetch_image_h5py.py:20-31 | for samples the dtype can hold, every normalised sample is in [0, 255] |
| FetchImageH5py.NormalisedMaxIs255 | backend/dev_script/fetch_image_h5py.py:22-26 | for uint16/uint32 with a positive maximum, the maximal samples map to 255 |
| FetchImageH5py.NormalisedMonotone | backend/dev_script/fetch_image_h5py.py:22-26 | uint16/uint32 scaling preserves the order of samples |
| FetchImageH5py.NormalisedZeroMax | backend/dev_script/fetch_image_h5py.py:27-28 | an unsigned array whose maximum is 0 normalises to all zeros |
| FetchImageH5py.NormalisedOtherType | backend/dev_script/fetch_image_h5py.py:29-31 | other dtypes are clipped to [0, 1] and scaled by 255: 0 for samples ≤ 0, else 255 |
| FetchImageH5py.ArrayToImageBytes | backend/dev_script/fetch_image_h5py.py:16-51 | each error the function raises itself, exactly when it arises (PIL's own refusals are not modelled): an empty wide-unsigned array, a non-2D array, a format other than JPEG/PNG; otherwise the normalised image with the format's encoder settings |
| FetchImageH5py.PreCheck | backend/dev_script/fetch_image_h5py.py:95-98 | the loop accepts exactly when every coordinate of the pivot is inside its extent |
| FetchImageH5py.ExtractTile | backend/dev_script/fetch_image_h5py.py:106-120 | an unknown view and nothing else gives no tile; a tile that was cut is a valid 2D array |
| FetchImageH5py.CoronalTileAt | backend/dev_script/fetch_image_h5py.py:106-109 | with h, w the clipped window lengths, the coronal tile is h×w and tile[i][j] = data[z][y+h-1-i][x+w-1-j] |
| FetchImageH5py.SagittalTileAt | backend/dev_script/fetch_image_h5py.py:110-113 | the sagittal tile has shape (ny, nz), and tile[i][j] = data[z+j][y+ny-1-i][x] |
| FetchImageH5py.HorizontalTileAt | backend/dev_script/fetch_image_h5py.py:114-117 | the horizontal tile is nz×w, and tile[i][j] = data[z+nz-1-i][y][x+w-1-j] |
| FetchImageH5py.CoronalSavedOrientation | backend/dev_script/fetch_image_h5py.py:137 | after the last row flip a coronal tile runs down in increasing y: saved[i][j] = data[z][y+i][x+w-1-j] |
| FetchImageH5py.ExtractedTileNonEmpty | backend/dev_script/fetch_image_h5py.py:106-117 | with the voxel in bounds and ts ≥ 1, every known view cuts a non-empty tile without an index error |
| FetchImageH5py.AsWrittenLetsXThrough | backend/dev_script/fetch_image_h5py.py:94-98 | as written, a sagittal request at x = 4 on a volume 4 wide passes the pre-check and raises in h5py |
| FetchImageH5py.AsWrittenRejectsValidZ | backend/dev_script/fetch_image_h5py.py:94-98 | as written, z = 3 on a (4, 4, 2) volume is turned away although the intended check saves the tile |
| FetchImageH5py.FetchNeverRaises | backend/dev_script/fetch_image_h5py.py:53-139 | with the pre-check on (z, y, x) and ts ≥ 1, a known view on an existing dataset always saves a tile |
| FetchImageH5py.ReadSaveIms | backend/dev_script/fetch_image_h5py.py:53-144 | the program as written, with its pre-check on (z, y, z): missing file, missing or non-dataset path, a pivot coordinate out of bounds or an unknown view return 1; an index error or empty tile raises; otherwise the row-flipped, normalised tile is JPEG-encoded at quality 85 |
| VisorStore.Store.constructor | frontend/src/stores/visor.ts:18-55 | the store starts in the initial state: sagittal view, zero slices, zoom 1, opacity 0.5, toggles on, the default channel settings |
| VisorStore.SliceForViewClamps | frontend/src/stores/visor.ts:62-70 | the stored slice is max(0, min(slice, maxSlices[view])), with maxSlices X-1, Y-1, Z-1; an in-range slice is kept; no other view or field changes |
| VisorStore.NoImageSlicesAreZero | frontend/src/stores/visor.ts:62-63 | without image info every maximum is 0, so every slice set is 0 |
| VisorStore.CurrentSliceReadsBack | frontend/src/stores/visor.ts:84-86 | after setting the current slice, currentSliceForView reads back the clamped value |
| VisorStore.Store.SetCurrentSlice | frontend/src/stores/visor.ts:180-183 | the active view's slice is clamped and set, and nothing else changes |
| VisorStore.Store.SetSliceForView | frontend/src/stores/visor.ts:185-187 | the named view's slice is clamped and set, and nothing else changes |
| VisorStore.Store.SetCurrentView | frontend/src/stores/visor.ts:176-178 | only the current view changes |
| VisorStore.CentreSlicesInRange | frontend/src/stores/visor.ts:113-121 | loading an image of positive size centres each slice at floor(dim/2), within the view's maximum, so a clamp leaves it there |
| VisorStore.LoadSpecimenWithoutImage | frontend/src/stores/visor.ts:106-110 | a specimen without an image becomes current and leaves image info and slices unchanged |
| VisorStore.Store.SetCurrentSpecimen | frontend/src/stores/visor.ts:102-122 | the fetched specimen is current; with an image its info is stored and the slices are centred |
| VisorStore.SetChannelGuarded | frontend/src/stores/visor.ts:189-194 | the channel changes only to, and always to, a number among the specimen's channel keys; otherwise the store is unchanged |
| VisorStore.ChannelKeyOffered | frontend/src/stores/visor.ts:190 | a channel key written as str(n) makes channel n available |
| VisorStore.Store.SetCurrentChannel | frontend/src/stores/visor.ts:189-194 | the store moves by the guarded channel transition |
| VisorStore.SetLevelGuarded | frontend/src/stores/visor.ts:196-200 | the level changes iff image info exists and 0 ≤ level < resolution_levels; a valid level stays valid |
| VisorStore.Store.SetCurrentLevel | frontend/src/stores/visor.ts:196-200 | the store moves by the guarded level transition |
| VisorStore.ClampZoomRange | frontend/src/stores/visor.ts:202-204 | the zoom stays in [0.1, 100], an in-range zoom is kept, and clamping is idempotent |
| VisorStore.Store.SetZoomLevel | frontend/src/stores/visor.ts:202-204 | only the zoom changes, to the clamped value |
| VisorStore.SetPositionSlices | frontend/src/stores/visor.ts:206-218 | the position is copied; with synchronised views each slice is its coordinate rounded (within one half, unclamped); otherwise the slices are kept; nothing else changes |
| VisorStore.SetPositionWholeNumbers | frontend/src/stores/visor.ts:210-217 | whole-number coordinates (z, y, x) become the slices (x, y, z) exactly |
| VisorStore.JsRoundNearest | frontend/src/stores/visor.ts:213-215 | Math.round moves a number by at most one half |
| VisorStore.Store.SetPosition | frontend/src/stores/visor.ts:206-218 | the store moves by the position transition |
| VisorStore.Store.MaximizeView | frontend/src/stores/visor.ts:220-222 | only the maximised panel changes |
| VisorStore.ToggleIsInvolution | frontend/src/stores/visor.ts:224-230 | a toggle flips its own flag and no other; toggling twice restores the store |
| VisorStore.Store.ToggleViewSync | frontend/src/stores/visor.ts:224-226 | the view-sync flag is toggled |
| VisorStore.Store.ToggleCrosshair | frontend/src/stores/visor.ts:228-230 | the crosshair flag is toggled |
| VisorStore.Store.ToggleAtlasOverlay | frontend/src/stores/visor.ts:271-273 | the atlas-overlay flag is toggled |
| VisorStore.Store.ToggleSidebar | frontend/src/stores/visor.ts:279-281 | the sidebar flag is toggled |
| VisorStore.Store.ToggleRegionBrowser | frontend/src/stores/visor.ts:283-285 | the region-browser flag is toggled |
| VisorStore.ClampOpacityRange | frontend/src/stores/visor.ts:275-277 | the opacity stays in [0, 1], an in-range value is kept, and clamping is idempotent |
| VisorStore.Store.SetAtlasOpacity | frontend/src/stores/visor.ts:275-277 | only the opacity changes, to the clamped value |
| VisorStore.UpdateSettingsWrites | frontend/src/stores/visor.ts:232-250 | each field present in the patch is written for that channel; absent fields and other channels keep their values |
| VisorStore.UpdateSettingsIdempotent | frontend/src/stores/visor.ts:232-250 | applying the same patch twice equals applying it once |
| VisorStore.Store.UpdateChannelSettings | frontend/src/stores/visor.ts:232-250 | the four guarded writes give the patched settings, and nothing else changes |
| VisorStore.Store.SetChannelBlendMode | frontend/src/stores/visor.ts:252-254 | only the blend mode changes |
| VisorStore.ResetForgetsUpdates | frontend/src/stores/visor.ts:256-265 | a reset restores the initial settings, whatever updates came before; the initial state is a fixed point |
| VisorStore.Store.ResetChannelSettings | frontend/src/stores/visor.ts:256-265 | the store moves by the reset transition |
| I18n.Translator.constructor | frontend/src/composables/useI18n.ts:8-13 | the locale starts as English with the two catalogues |
| I18n.Translator.SetLocale | frontend/src/composables/useI18n.ts:18-20 | the current locale becomes the one given |
| I18n.Translator.InitializeLocale | frontend/src/composables/useI18n.ts:53-62 | a saved 'en' or 'zh' becomes the locale; anything else leaves it unchanged |
| I18n.Translator.T | frontend/src/composables/useI18n.ts:28-50 | the nested walking loops, with their break and early return, return exactly the lookup's specification |
| I18n.TranslateFound | frontend/src/composables/useI18n.ts:29-34 | a string at the key's full path in the current catalogue is returned |
| I18n.TranslateFallsBack | frontend/src/composables/useI18n.ts:35-45 | when the path breaks off in the current catalogue, the answer is English's |
| I18n.TranslateMissing | frontend/src/composables/useI18n.ts:42 | missing in both catalogues, or no string in English, gives the key itself |
| I18n.TranslateNoFallbackOnNonString | frontend/src/composables/useI18n.ts:49 | a path resolving to a non-string in the current catalogue gives the key, without trying English |
| I18n.TranslateSource | frontend/src/composables/useI18n.ts:28-50 | the result is the key, a string at the path in the current catalogue, or (after a break) one in English |
| I18n.TranslatePath | frontend/src/composables/useI18n.ts:29 | for path segments without dots, the dotted key of a stored string finds that string |
| I18n.WalkMissSticks | frontend/src/composables/useI18n.ts:32-35 | once the walk breaks off it stays broken for the rest of the key |
| ConvertRegions.RegionsOfSpec | scripts/convert_regions.py:41-53 | one region per row in row order; id and value from Value, else index+1; name defaults to Region_{index+1}; parent None, no children |
| ConvertRegions.AddRowEffect | scripts/convert_regions.py:61-73 | one row creates level1 iff non-empty, level2 only under non-empty level1 and level2, a level3 list only when all three are non-empty, and appends a non-empty level4 only when absent |
| ConvertRegions.HierarchyLevel1 | scripts/convert_regions.py:61-62 | a level1 key exists iff some row has that non-empty level1 |
| ConvertRegions.HierarchyLevel2 | scripts/convert_regions.py:64-66 | a level2 key exists iff some row has that non-empty level1 and level2 |
| ConvertRegions.HierarchyLevel3 | scripts/convert_regions.py:68-70 | a level3 list exists iff some row has those three non-empty levels |
| ConvertRegions.HierarchyLevel4 | scripts/convert_regions.py:72-73 | a name is in a leaf list iff some row has that full non-empty path |
| ConvertRegions.HierarchyLeavesClean | scripts/convert_regions.py:72-73 | every leaf list is duplicate-free and holds no empty name |
| ConvertRegions.HierarchyGrows | scripts/convert_regions.py:61-73 | later rows never remove keys, and leaf lists only grow at their ends (first-seen order) |
| ConvertRegions.LookupOfKeys | scripts/convert_regions.py:86 | the lookup has key str(v) iff some region has value v |
| ConvertRegions.LookupOfLastWins | scripts/convert_regions.py:86 | on duplicate values the last region wins |
| ConvertRegions.InsertPath | scripts/convert_regions.py:61-73 | the guarded in-place insertions compute one row's hierarchy step |
| ConvertRegions.ConvertRows | scripts/convert_regions.py:39-86 | the row loop gives total = row count, the region list, the hierarchy and the lookup of the specification |
| BenchmarkTiles.LayoutOf | scripts/benchmark_tiles.py:122-140 | the area error iff either used side is below the tile size; the no-slice error iff the area fits but no slices remain; the zero-step error of range() iff ts = 0 |
| BenchmarkTiles.LayoutBounds | scripts/benchmark_tiles.py:122-140 | used sides are max(0, min(area, dim)); 0 ≤ y0 ≤ Y-used_h, 0 ≤ x0 ≤ X-used_w, 0 ≤ z0 ≤ Z-slices with slices = min(z_slices, Z) ≥ 1 |
| BenchmarkTiles.RandInt | scripts/benchmark_tiles.py:132-140 | a drawn start lies in [lo, hi] |
| BenchmarkTiles.OffsetsFit | scripts/benchmark_tiles.py:143-144 | each offset is non-negative, a tile from it ends inside the used side, and the offsets increase |
| BenchmarkTiles.OriginsMembers | scripts/benchmark_tiles.py:151-158 | a tile is requested iff its z is one of the slices and its y and x offsets are among the row and column offsets |
| BenchmarkTiles.OriginsInsideVolume | scripts/benchmark_tiles.py:142-158 | every requested tile lies inside the volume: z < Z, y+ts ≤ Y, x+ts ≤ X |
| BenchmarkTiles.OriginsCount | scripts/benchmark_tiles.py:143-158 | slices · ⌊used_h/ts⌋ · ⌊used_w/ts⌋ tiles are requested |
| BenchmarkTiles.OriginsInOrder | scripts/benchmark_tiles.py:151-158 | requests go z outermost, then y, then x, in increasing order, so none repeats |
| BenchmarkTiles.UrlInjective | scripts/benchmark_tiles.py:158 | the z/y/x coordinates can be read back from a URL |
| BenchmarkTiles.UrlsDistinct | scripts/benchmark_tiles.py:151-158 | no URL is planned twice |
| BenchmarkTiles.UrlsAt | scripts/benchmark_tiles.py:158 | the k-th URL is built from the k-th origin |
| BenchmarkTiles.StripSlashes | scripts/benchmark_tiles.py:147 | the stripped base is a prefix of the original that does not end in '/', and everything removed is '/' |
| BenchmarkTiles.AppendRow | scripts/benchmark_tiles.py:155-158 | the innermost loop appends the row's URLs in order |
| BenchmarkTiles.AppendPlane | scripts/benchmark_tiles.py:153-158 | the middle loop appends the slice's rows in order |
| BenchmarkTiles.AppendTiles | scripts/benchmark_tiles.py:151-158 | the outer loop produces the URLs of every origin in order |
| BenchmarkTiles.BuildRequestUrls | scripts/benchmark_tiles.py:107-160 | errors exactly as the layout raises them; otherwise the URLs of the layout's origins, in order |
| BenchmarkTiles.PyIndex | scripts/benchmark_tiles.py:89-91 | Python list indexing: defined iff -n ≤ i < n, s[i] for a non-negative index |
| BenchmarkTiles.Percentile | scripts/benchmark_tiles.py:81-83 | an empty list gives 0.0 |
| BenchmarkTiles.RankInRange | scripts/benchmark_tiles.py:85-87 | for p in [0, 100] the rank and its floor and ceiling lie inside the list |
| BenchmarkTiles.InterpolateBetween | scripts/benchmark_tiles.py:86-92 | the interpolation lies between the neighbouring sorted values, a fraction k - floor(k) of the way |
| BenchmarkTiles.PercentileBounded | scripts/benchmark_tiles.py:81-92 | for p in [0, 100] the percentile lies between two of the values |
| BenchmarkTiles.PercentileZeroIsMin | scripts/benchmark_tiles.py:81-92 | p = 0 gives the minimum |
| BenchmarkTiles.PercentileHundredIsMax | scripts/benchmark_tiles.py:81-92 | p = 100 gives the maximum |
| BenchmarkTiles.PercentileMonotone | scripts/benchmark_tiles.py:81-92 | a larger p never gives a smaller percentile |
| BenchmarkTiles.ResultsSplitByOk | scripts/benchmark_tiles.py:311-312 | successes are ok results, errors are not |
| BenchmarkTiles.ResultsPartition | scripts/benchmark_tiles.py:311-312 | successes and errors together are all results, each with its multiplicity |
| BenchmarkTiles.LatenciesMs | scripts/benchmark_tiles.py:314-321 | one latency per success |
| BenchmarkTiles.SummaryConsistent | scripts/benchmark_tiles.py:311-321 | the summary never fails, successes + errors = results, and p50 ≤ p90 ≤ p99 |
| BenchmarkTiles.PlanRequests | scripts/benchmark_tiles.py:293-298 | the warm-up is the first max(0, min(warmup, n)) URLs; the measured ones follow it, cut to max_requests when positive |
| BenchmarkTiles.ChooseTileSize | scripts/benchmark_tiles.py:271 | a positive argument wins, otherwise the server's tile size |
| Text.ParseIntOfIntToStr | backend/app/services/imaris_handler.py:66 | int(str(i)) == i |
| Text.IntToStrInjective | scripts/convert_regions.py:86 | distinct values print differently, so str(value) keys are faithful |
| Text.SplitJoin | frontend/src/composables/useI18n.ts:29 | splitting joined dot-free parts gives them back |
| Text.JoinSplit | frontend/src/composables/useI18n.ts:29 | joining a split string with its separator gives it back |
| Sorting.SortIntsAscending | backend/app/services/imaris_handler.py:69 | sorted() of ints is ascending (and, by its contract, a permutation) |
| Sorting.SortRealsAscending | scripts/benchmark_tiles.py:84 | sorted() of floats is ascending (and a permutation) |
| Matrices.MaxCellIsMax | backend/dev_script/fetch_image_h5py.py:24 | np.max is attained by a sample and bounds every sample |
| Matrices.FlipRowsTwice | backend/dev_script/fetch_image_h5py.py:137 | [::-1] on rows undoes itself |
| Matrices.Window | backend/app/services/imaris_handler.py:149 | m[r0:r1, c0:c1] has the clipped Python slice lengths |
| Volumes.H5Index | backend/app/services/imaris_handler.py:115-121 | an h5py integer index is valid iff it lies in [-n, n); a negative one counts from the end |
| Volumes.ReadPlaneAt | backend/dev_script/fetch_image_h5py.py:109-117 | a cell of a plane read with one fixed index and two slices is the voxel at the clipped slice starts plus its offsets |

## Left out

- h5py, HDF5 storage and PIL are foreign libraries. The file is an abstract map from paths to groups and datasets. The encoded bytes are left opaque: `EncodedImage` records the encoder settings and the 8-bit pixels handed to PIL.
- float32 rounding in the uint16/uint32 normalisation is not modelled. The model computes trunc(v·255/max) exactly in integers. Floats in other dtypes are not modelled either: their samples are integers here, so clipping to [0, 1] and scaling by 255 gives 0 or 255.
- File-system work is left out:
  - file existence becomes a parameter (`Open(onDisk)`, and `image: Option<H5File>` in the script);
  - the file size from `stat` becomes the `fileSize` parameter of `GetMetadata`;
  - output file writing, `print` and timing are dropped.
- `get_histogram` and the context-manager methods `__enter__`/`__exit__` of the handler are not modelled. They are thin wrappers over h5py and over open/close.
- ImarisHandler.Handler.GetTile: requires tile_size ≥ 1 and non-negative grid indices x, y. get_tile itself does not check them: tile_size 0 gives an empty tile, and negative indices give Python's wrap-around slices.
- ImarisHandler.Handler.CalculateTileGridSize: requires tile_size ≥ 1. With 0 the source divides by zero.
- The service that orchestrates the handler (`tile_service.py`) is not part of this model. Neither are the API routes around it.
- The store's asynchronous actions are reduced to their synchronous effect:
  - `setCurrentSpecimen` takes the fetched specimen and image info as parameters;
  - the loading and error flags, `loadSpecimens`, `loadRegions`, `pickRegionAtCoordinate`, `setSelectedRegion`, `clearError` and `initialize` are network calls or plain assignments, and are not modelled;
  - the computed `maxLevel` and `viewerState` are not modelled.
- JavaScript numbers are exact reals for slices, zoom, opacity and position. NaN and infinities are not modelled.
- `Number(key)` of a channel key reads only optionally signed decimal integers and the empty string. Other numeric syntaxes, such as " 2" or "0x2", are not modelled.
- Channel identifiers are the four keys 0 to 3 that the settings maps hold. `updateChannelSettings` with any other channel is not modelled.
- localStorage in the translation module is left out:
  - `setLocale` does not save;
  - `initializeLocale` takes the saved value as an `Option`, with None standing for "nothing saved" and for a failed read.
- Message catalogues are a datatype of strings, objects and other scalars. JSON arrays count as scalars.
- The region converter leaves out pandas:
  - Excel reading is replaced by rows given as a sequence;
  - missing columns are None or "";
  - NaN cells are not modelled;
  - JSON writing and the conversion timestamp are not modelled.
- The benchmark's network and timing are left out:
  - `fetch_grid_info`, `http_get_*`, `fetch_one`, `run_serial`, `run_parallel`, the wall clock, throughput figures and printing are not modelled;
  - `random.Random(seed)` is replaced by the `Draws` parameter, one draw per `randint` call.
- BenchmarkTiles.BuildRequestUrls: `urlencode` is written out for the two integer parameters only.
- BenchmarkTiles.Percentile: floats are exact reals, so the float rounding of the interpolation weights is not modelled.
- BenchmarkTiles.AppendRow, BenchmarkTiles.AppendPlane, BenchmarkTiles.AppendTiles: the three nested loops of build_request_urls are split into one method per loop. The order of appends is unchanged.
- Text.ParseInt, Text.LastWord: `int()` is modelled for ASCII only: an optional sign and the digits 0-9. Python also accepts single `_` between digits (`int("1_0") == 10`) and non-ASCII decimal digits. A group key such as `ResolutionLevel 1_0` therefore fails here with InvalidLiteral, where the source reads level 10. `split()` uses the full set of characters for which `str.isspace()` holds.
- FetchImageH5py.ArrayToImageBytes: the only errors are those the function raises itself (the empty reduction of `np.max`, a non-2D array, an unsupported format). An empty 2D array (0 rows or 0 columns) that reaches PIL gives `Ok` here, but PIL's encoders refuse an image of zero width or height. `read_save_ims` never gets there, because an empty tile already fails at `np.min` (line 133).

## Findings

| source | as written | input that shows it | evidently intended | confidence | as-written member | corrected member |
|---|---|---|---|---|---|---|
| backend/dev_script/fetch_image_h5py.py:94-98 | the bounds pre-check tests `pivot_zyx = (z, y, z)` against the (Z, Y, X) shape, so x is never checked and z is also compared with X | sagittal, z=0, y=0, x=4, tile 2 on a (2, 2, 4) dataset passes the check and then raises an h5py IndexError (`AsWrittenLetsXThrough`); coronal z=3 on a (4, 4, 2) dataset is turned away though in range (`AsWrittenRejectsValidZ`) | `pivot_zyx = (z, y, x)` | not executed; high | FetchImageH5py.FetchAsWritten | FetchImageH5py.Fetch (proved by FetchImageH5py.FetchNeverRaises) |
