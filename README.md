# vvmviz frame cache and its surroundings, in Dafny

This project models the core of vvmviz. vvmviz is a Panel/HoloViews viewer for output of the
Vector Vorticity equation cloud-resolving Model (VVM). Its centre is the **frame cache**
(`CacheManager` in `src/vvmviz/utils/cache.py`), which keeps:
- a dictionary from cache key to frame bundle;
- an oldest-to-newest key list for LRU eviction;
- hit, miss and prefetch counters;
- a one-slot background prefetch.

Around it the project models the code that builds requests and assembles bundles:
- the controller glue: time-slider mapping, first available time, cache lookup then
  load-and-store, next-frame prefetch, and selector retention;
- the data loader: tagged-tuple time and height selectors, time-index scanning from file
  names, variable-group scanning, and the memoised terrain loader;
- the data processor: range widening, variable-name resolution, wind selection and the
  land/ocean composite, and bundle assembly.

It also models the small self-contained pieces of the viewer:
- the playback controller's session-ID guard and modular stepping;
- the two-click domain selector;
- shapefile polygon splitting and the NaN-separated merge buffer;
- colormap defaults with `*` patterns and `_r` toggling;
- metadata ordering and structure;
- the zoom-range recorder;
- colour limits and plot composition.

Modules follow the source files:

| module | file | source |
|---|---|---|
| `Wrappers` | wrappers.dfy | Option, and Outcome (a value or a raised exception) |
| `Frames` | frames.dfy | shared values: Python values and tuples, arrays, `FrameRequest`, bundles, both cache keys |
| `Arith` | arith.dfy | modular-arithmetic helper lemmas |
| `FrameCache` | frame_cache.dfy | `src/vvmviz/utils/cache.py` |
| `AppController` | app_controller.dfy | `src/vvmviz/controllers/app_controller.py` |
| `DataLoader` | data_loader.dfy | `src/vvmviz/core/data_loader.py` |
| `DataProcessor` | data_processor.dfy | `src/vvmviz/core/data_processor.py` |
| `Playback` | playback.dfy | `src/vvmviz/ui/playback.py` |
| `MapSelector` | map_selector.dfy | `src/vvmviz/ui/map_selector.py` |
| `Shapefile` | shapefile.dfy | `src/vvmviz/utils/shapefile.py` |
| `Colormaps` | colormaps.dfy | `src/vvmviz/plotting/colormaps.py` |
| `Metadata` | metadata.dfy | `src/vvmviz/utils/metadata.py` |
| `AppStateModel` | state.dfy | `src/vvmviz/state.py` |
| `PlotBase` | plot_base.dfy | `src/vvmviz/plotting/base.py` |

How the cache is modelled:
- `CacheManager` is a class with three fields:
  - `frameCache: map<Value, Bundle>`;
  - `frameCacheKeys: seq<Value>`;
  - `futures: seq<Future>`, every future handed to the single-thread executor, oldest first.
- Its `Valid()` keeps three invariants:
  - the map and the list agree;
  - only the newest future may be pending, and at most one future runs;
  - every prefetch counter equals the tally over the futures.
- The prefetch pipeline is a sequential state machine:
  - `PrefetchAsync` is a submit;
  - `WorkerStart` is the executor picking up the pending future and re-checking the cache;
  - `WorkerFinish` receives the loader's result, or a failure, and the elapsed time as inputs.

Cache keys are modelled as Python values. Two things follow from that, and the proofs make
both explicit:
- **Capacity must be at least 1.** With `max_size` below 1, a `put` of a new key pops from an
  empty list. `FrameCache.LruPutRaisesIff` states exactly when that happens, and
  `CacheManager.Put` returns `raised`.
- **Prefetched frames are never served.** The controller stores and looks up bundles under a
  6-tuple key. The prefetch worker checks and stores under `FrameRequest.cache_key()`, a
  3-tuple. These keys can never be equal (`Frames.RequestKeyIsNeverControllerKey`). So
  storing a prefetched bundle never changes what the controller's lookup returns
  (`AppController.PrefetchNeverServesController`).

The domain selector has a related property. Re-entering a box drawn from slider indices
`(a, b)` with `b > a + 1` yields `(a, b - 1)`, because the end index is converted inclusively
one way and exclusively the other way (`MapSelector.ReclickedBoxNarrows`).

## Model

| member | source | states |
|---|---|---|
| Frames.RequestKeyIdentifies | src/vvmviz/utils/cache.py:47-60 | two requests have the same prefetch key iff their variable, time range and height range agree; overlay settings do not enter the key |
| Frames.RequestKeyIsNeverControllerKey | src/vvmviz/controllers/app_controller.py:732-739 | the controller's 6-tuple key never equals any `FrameRequest.cache_key()` 3-tuple; only the controller's key has the controller shape |
| FrameCache.HitRate | src/vvmviz/utils/cache.py:90-95 | hit rate lies in [0, 1], is 0 with no lookups, satisfies rate·(hits+misses) = hits, and is 1 exactly when there are hits and no misses |
| FrameCache.AverageLoadTime | src/vvmviz/utils/cache.py:97-100 | average·(misses+prefetch successes) = total load time, 0 when that sum is 0, non-negative for a non-negative total |
| FrameCache.Without | src/vvmviz/utils/cache.py:194 | `list.remove` of a present key drops exactly that key and keeps a duplicate-free list duplicate-free; an absent key changes nothing |
| FrameCache.LruGetKeepsWellFormed | src/vvmviz/utils/cache.py:191-205 | a lookup keeps map and key list in agreement, leaves the stored bundles unchanged, and returns the stored bundle iff the key is present |
| FrameCache.LruGetHitIsMostRecent | src/vvmviz/utils/cache.py:192-195 | a hit moves the key to the newest position and keeps the list length |
| FrameCache.LruPutRaisesIff | src/vvmviz/utils/cache.py:219-232 | `put` raises iff the key is new and the capacity is below 1 |
| FrameCache.LruPutReplace | src/vvmviz/utils/cache.py:221-222 | `put` of an existing key replaces its bundle and moves it to the newest position without eviction |
| FrameCache.LruPutEvict | src/vvmviz/utils/cache.py:225-232 | `put` of a new key into a full cache evicts exactly the oldest key, then appends the new key |
| FrameCache.LruPutAppend | src/vvmviz/utils/cache.py:231-232 | `put` of a new key with room left adds it at the newest position and keeps everything else |
| FrameCache.LruPutSpec | src/vvmviz/utils/cache.py:219-232 | after a successful `put`, map and list still agree within capacity, the key maps to the new bundle at the newest position, other bundles are unchanged, and only the oldest key of a full cache can disappear |
| FrameCache.LruPutThenGet | src/vvmviz/utils/cache.py:176-232 | a lookup right after a successful `put` returns the bundle just stored |
| FrameCache.LruPutIdempotent | src/vvmviz/utils/cache.py:219-232 | putting the same key and bundle twice leaves the same state as putting it once |
| FrameCache.PutOfNewestIsNoOp | src/vvmviz/utils/cache.py:221-232 | re-putting the newest key with its stored bundle changes nothing |
| FrameCache.TallyAppend | src/vvmviz/utils/cache.py:285-329 | the prefetch counters over a future list plus one future are the old counters plus that future's contribution |
| FrameCache.TallyUpdate | src/vvmviz/utils/cache.py:316-338 | replacing one future's state changes the tallied counters by exactly the difference of the two contributions |
| FrameCache.FinishKeepsQueue | src/vvmviz/utils/cache.py:313-338 | finishing a running future keeps "only the newest is pending, at most one runs" |
| FrameCache.CancelCurrent | src/vvmviz/utils/cache.py:282-285 | cancelling the current future leaves nothing queued, keeps the list length and leaves the running future running |
| FrameCache.TallyCancelCurrent | src/vvmviz/utils/cache.py:282-285 | cancelling adds 1 to the cancelled count exactly when the current future was still queued |
| FrameCache.SubmitKeepsQueue | src/vvmviz/utils/cache.py:289-290 | submitting a new future when none is pending keeps the queue invariant |
| FrameCache.CacheManager.constructor | src/vvmviz/utils/cache.py:145-174 | a new manager is empty, with zero counters, no futures and a live executor |
| FrameCache.CacheManager.Get | src/vvmviz/utils/cache.py:176-205 | the result and new LRU state are those of the lookup; the result is present iff the key was cached; hits or misses grows by 1 |
| FrameCache.CacheManager.Put | src/vvmviz/utils/cache.py:207-234 | the new state is that of `put`; `raised` iff the key is new and the capacity is below 1, and then nothing changes; counters and futures are untouched |
| FrameCache.CacheManager.Clear | src/vvmviz/utils/cache.py:236-241 | both the map and the key list become empty; counters and futures are untouched |
| FrameCache.CacheManager.Size | src/vvmviz/utils/cache.py:243-246 | the size is the number of entries, equals the key-list length and is within capacity |
| FrameCache.CacheManager.PrefetchAsync | src/vvmviz/utils/cache.py:248-293 | nothing is scheduled iff prefetch is off or the 3-tuple key is cached; otherwise the current future is cancelled (counted iff it was still queued) and the new future becomes current |
| FrameCache.CacheManager.WorkerStart | src/vvmviz/utils/cache.py:313-317 | the executor starts the pending future, which finishes at once as skipped when its key is already cached |
| FrameCache.CacheManager.WorkerFinish | src/vvmviz/utils/cache.py:320-338 | a returned bundle is stored with `put`, adding 1 success and the elapsed time; a loader failure or a raising `put` adds 1 failure and stores nothing |
| FrameCache.CacheManager.Shutdown | src/vvmviz/utils/cache.py:344-350 | once the executor is idle, shutdown ends it and leaves an empty cache with counters kept |
| FrameCache.NewDefaultCacheManager | src/vvmviz/utils/cache.py:370-400 | the manager is created with the given size, or the default capacity of 200, and starts empty |
| AppController.InRange | src/vvmviz/controllers/app_controller.py:440 | the comprehension keeps exactly the available indices inside the time range |
| AppController.FirstInRange | src/vvmviz/controllers/app_controller.py:440-441 | the position of the first available index inside the range, with none before it; none iff no index is in range |
| AppController.FirstAvailableTime | src/vvmviz/controllers/app_controller.py:432-442 | the first in-range available index; else the first available index; else the range start |
| AppController.FirstAvailableIsEarliest | src/vvmviz/controllers/app_controller.py:432-442 | over ascending indices with one in range, the result is in range and no later than any available index at or after the start |
| AppController.SliderTimes | src/vvmviz/controllers/app_controller.py:497-505 | slider times are the in-range available indices, falling back to all of them, or to the whole range when none are known |
| AppController.SliderTime | src/vvmviz/controllers/app_controller.py:690 | a slider position maps to its recorded file index, or to itself when none is recorded |
| AppController.NextFrameAfterSetup | src/vvmviz/controllers/app_controller.py:772-775 | after time-slider setup, the position after `pos` maps to the next slider time |
| AppController.Retained | src/vvmviz/controllers/app_controller.py:226-233 | the current value is kept when it is an option, else the first option is chosen, and choosing from no options raises |
| AppController.RetainedIdempotent | src/vvmviz/controllers/app_controller.py:226-233 | re-applying retention to its own result changes nothing |
| AppController.LevelChoice | src/vvmviz/controllers/app_controller.py:541-550 | the old level is kept unless reset is asked or it is not an option, else the first level; no levels raises |
| AppController.MenuEntry | src/vvmviz/controllers/app_controller.py:226 | looking up a category returns the variable list of its first entry in the menu |
| AppController.KeyOf | src/vvmviz/controllers/app_controller.py:732-739 | the controller's key always has the 6-tuple controller shape |
| AppController.PrefetchNeverServesController | src/vvmviz/controllers/app_controller.py:741 | storing a bundle under a prefetch key never adds or changes the entry under any controller key |
| AppController.Controller.UpdateVariableSelectors | src/vvmviz/controllers/app_controller.py:217-243 | category options become the menu labels; a kept category retains or resets the variable as retention says; otherwise the first category is chosen; the contour category is updated likewise |
| AppController.Controller.OnCategoryChange | src/vvmviz/controllers/app_controller.py:303-321 | a known category loads its variable list and retains the variable, raising iff the list is empty; an unknown one changes nothing |
| AppController.Controller.UpdateRangeSliders | src/vvmviz/controllers/app_controller.py:245-301 | time slider spans the scanned indices; height range is non-empty (`z_min + 1000` when inverted); grid size defaults to 100; the saved zoom is cleared iff earlier grid bounds differ |
| AppController.Controller.SetGridSize | src/vvmviz/controllers/app_controller.py:277-297 | x and y sliders span the grid; the saved zoom is cleared iff earlier grid bounds exist and differ from the new ones |
| AppController.Controller.SetupTimeSlider | src/vvmviz/controllers/app_controller.py:486-524 | position i maps to the i-th slider time; options are 0..n-1; the old position is kept if below n, else 0; without a time dimension the slider is hidden |
| AppController.Controller.SetupLevelSlider | src/vvmviz/controllers/app_controller.py:526-553 | level values are recorded, the value follows the level choice and the reset flag ends false; without a level dimension the slider is hidden |
| AppController.Controller.LoadDataBundle | src/vvmviz/controllers/app_controller.py:730-760 | the result and the new cache contents are CachedLoad of the old contents and the frame FrameBundle loads; a cached key counts a hit, any other a miss; tasks and the shutdown flag are unchanged |
| AppController.CachedLoadSpec | src/vvmviz/controllers/app_controller.py:730-760 | a cached bundle answers unless forced; otherwise the loaded bundle, or a raise exactly when loading raises or a new key meets a capacity below 1; a returned bundle is cached under the key, every other entry is an old one unchanged, and the cache stays well formed |
| AppController.LoadDataBundleOutcome | src/vvmviz/controllers/app_controller.py:743-758 | in the source's terms: a forced or missing frame raises exactly when reading its main variable raises or a new key meets a capacity below 1, and a returned bundle is the one cached under the 6-tuple key |
| AppController.Controller.PrefetchNextFrame | src/vvmviz/controllers/app_controller.py:762-803 | a request is submitted iff the slider is visible and not at its last position, for the file index mapped from the next position; the submission cancels and counts a queued current task and adds a pending one, exactly as `prefetch_async` does unless prefetch is off or the frame is cached; the cache contents never change |
| AppController.Controller.UpdatePlotProceeds | src/vvmviz/controllers/app_controller.py:575-594 | the plot updates iff a simulation is chosen, data was loaded, and no simulation is loading unless forced |
| DataLoader.CreateTimeSelection | src/vvmviz/core/data_loader.py:164-190 | a `'time'`-tagged triple is a time range, an `'index'`-tagged one an index range of the two bounds, and any other tuple an index range of the whole tuple |
| DataLoader.CreateVerticalSelection | src/vvmviz/core/data_loader.py:193-224 | None gives none; `'index'` gives an index range; `'height'` gives a height range of the bounds; anything else a height range of the whole tuple |
| DataLoader.PlainPairDefaults | src/vvmviz/core/data_loader.py:182-224 | an untagged pair is an index range in time and a height range vertically; tagged triples select by their tag |
| DataLoader.Padded | src/vvmviz/core/data_loader.py:547-548 | a six-digit file index has exactly its width in digits |
| DataLoader.PaddedRoundTrip | src/vvmviz/core/data_loader.py:547-548 | reading back a zero-padded index gives the index modulo 10^width |
| DataLoader.ParseTimeIndex | src/vvmviz/core/data_loader.py:548 | an index is read iff the name ends with `-`, six digits and `.nc`; it is below 10^6 |
| DataLoader.TimeIndexRoundTrip | src/vvmviz/core/data_loader.py:548 | any name `prefix-DDDDDD.nc` yields exactly its index |
| DataLoader.InsertSorted | src/vvmviz/core/data_loader.py:550-553 | adding an index to the set keeps the list strictly increasing with exactly the old members plus the new one |
| DataLoader.ScanTimeIndices | src/vvmviz/core/data_loader.py:514-556 | the result is strictly increasing and holds exactly the indices read from the names, or is `[0]` when none are found |
| DataLoader.FindGroup | src/vvmviz/core/data_loader.py:106 | a found group is a `C.name` or `L.name` group surrounded by `.` and `-` in the name; none means no such occurrence |
| DataLoader.FindGroupLeftmost | src/vvmviz/core/data_loader.py:106-108 | the found group is the capture of the leftmost match, as `re.search` returns it |
| DataLoader.Basename | src/vvmviz/core/data_loader.py:105 | the base name is a slash-free suffix of the path |
| DataLoader.BasenameAfterLastSlash | src/vvmviz/core/data_loader.py:105 | the base name is the whole path or starts right after a slash, so it is everything after the last slash |
| DataLoader.GroupOfTaggedName | src/vvmviz/core/data_loader.py:105-108 | a file name `stem.G-rest` belongs to group G |
| DataLoader.SortStrings | src/vvmviz/core/data_loader.py:99 | file and variable names are sorted and form a permutation of the input |
| DataLoader.DataVariables | src/vvmviz/core/data_loader.py:118-121 | a group's variables are exactly the data variables other than the coordinate names |
| DataLoader.Assign | src/vvmviz/core/data_loader.py:110 | dictionary assignment replaces an existing key in place and appends a new key at the end |
| DataLoader.GroupFiles | src/vvmviz/core/data_loader.py:101-110 | the group map has one entry per group |
| DataLoader.GroupFilesFirstWins | src/vvmviz/core/data_loader.py:101-110 | each group maps to its first file in sorted order |
| DataLoader.GroupFilesCovers | src/vvmviz/core/data_loader.py:101-110 | every file with a group has its group in the map |
| DataLoader.GroupMenuEntries | src/vvmviz/core/data_loader.py:112-123 | every menu entry is labelled with a group whose file read, and holds that file's data variables (the same multiset), sorted, non-empty, without coordinate names |
| DataLoader.GroupMenuCovers | src/vvmviz/core/data_loader.py:112-123 | every group whose file reads with at least one data variable has an entry |
| DataLoader.ScanVariableGroups | src/vvmviz/core/data_loader.py:93-138 | the loop over the sorted files builds the first-file-per-group map; the menu is then the group entries, diagnostics and the topography entry |
| DataLoader.EnrichVariableGroups | src/vvmviz/core/data_loader.py:141-157 | exactly one key is assigned: an existing topography entry is replaced in place, otherwise it is appended last; every other entry is unchanged and labels stay distinct |
| DataLoader.RepairInverted | src/vvmviz/core/data_loader.py:411-414 | an inverted or empty range becomes `(x0, x0 + 1)`; a proper range is unchanged |
| DataLoader.TerrainSpec | src/vvmviz/core/data_loader.py:392-434 | terrain height raises iff the reader raises; it is sliced only when both ranges are given, with repaired bounds, and is always named terrain height |
| DataLoader.TerrainCache.GetTerrainData | src/vvmviz/core/data_loader.py:358-434 | the result is the terrain specification; the loader is called only for a path not yet in the memo table, which then records it |
| DataLoader.ListSimulations | src/vvmviz/core/data_loader.py:53-62 | a non-directory or a listing error gives an empty list, else the listing |
| DataProcessor.WidenEmpty | src/vvmviz/core/data_processor.py:72-75 | a zero-width range becomes width 1; other ranges are unchanged |
| DataProcessor.FirstNamed | src/vvmviz/core/data_processor.py:90-91 | an exact name lookup finds the array iff one has that name |
| DataProcessor.FirstPrefixed | src/vvmviz/core/data_processor.py:93-98 | the first data variable whose name starts with the requested name, or none when no name does |
| DataProcessor.ResolveName | src/vvmviz/core/data_processor.py:90-98 | an exact match wins; otherwise the first prefixed data variable; the result's name always starts with the requested name |
| DataProcessor.GetDataArray | src/vvmviz/core/data_processor.py:22-102 | terrain height goes to the terrain loader, other names to the dataset; both use widened ranges, and reader failures propagate |
| DataProcessor.TerrainRequestIsNamed | src/vvmviz/core/data_processor.py:78-79 | a loaded terrain request is present and named terrain height |
| DataProcessor.SurfaceTime | src/vvmviz/core/data_processor.py:159-162 | surface wind uses the first time index of a pair, else index 0 |
| DataProcessor.LandMask | src/vvmviz/core/data_processor.py:156 | a point is land iff its terrain height is positive |
| DataProcessor.Composite | src/vvmviz/core/data_processor.py:215-216 | land wind where the mask is set, ocean wind elsewhere, point by point |
| DataProcessor.SurfaceWind | src/vvmviz/core/data_processor.py:153-220 | surface wind exists only when terrain and all four components loaded, and it is the composite of the squeezed components under the aligned land mask |
| DataProcessor.GetWindVectors | src/vvmviz/core/data_processor.py:105-253 | surface wind when asked for, otherwise `u` and `v`; present iff both loaded; failures give none |
| DataProcessor.GetContourData | src/vvmviz/core/data_processor.py:256-320 | the contour array iff it loaded; failures and missing names give none |
| DataProcessor.FrameBundle | src/vvmviz/core/data_processor.py:323-455 | the bundle carries the given ranges and variable, `main` when loaded, `wind` when enabled and loaded, `contour` when enabled with a name and loaded; a main-load failure propagates |
| DataProcessor.LoadFrameBundle | src/vvmviz/core/data_processor.py:398-455 | building the dictionary entry by entry gives FrameBundle |
| DataProcessor.BundleKeysOfLoad | src/vvmviz/core/data_processor.py:398-449 | which keys a loaded bundle holds: always the ranges and variable, `main` iff it loaded, `wind` only if enabled, `contour` iff enabled, named and loaded |
| DataProcessor.WithoutSingletons | src/vvmviz/core/data_processor.py:484-488 | exactly the dimensions of size other than 1 remain |
| DataProcessor.WithoutSingletonsKeepsSize | src/vvmviz/core/data_processor.py:484-488 | squeezing keeps the number of elements |
| DataProcessor.SqueezeSingletonDims | src/vvmviz/core/data_processor.py:458-490 | size-1 dimensions go, the element count, values, name, attributes and coordinates stay |
| DataProcessor.DropDim | src/vvmviz/core/data_processor.py:524-527 | indexing a dimension removes exactly that dimension |
| DataProcessor.Isel | src/vvmviz/core/data_processor.py:524-527 | a successful index selection removes the indexed dimension and keeps every other dimension |
| DataProcessor.SelectSingleTimeLevel | src/vvmviz/core/data_processor.py:493-529 | `time` or `lev` is dropped iff an index is given and the dimension exists; other dimensions stay; no indices leaves the array unchanged |
| Playback.ForwardValue | src/vvmviz/ui/playback.py:233-240 | the next option cyclically, or the first option when the value is not an option |
| Playback.BackwardValue | src/vvmviz/ui/playback.py:258-265 | the previous option cyclically, or the last option when the value is not an option |
| Playback.BackwardUndoesForward | src/vvmviz/ui/playback.py:217-270 | with distinct options, a backward step undoes a forward step |
| Playback.ForwardUndoesBackward | src/vvmviz/ui/playback.py:217-270 | with distinct options, a forward step undoes a backward step |
| Playback.StepFromPosition | src/vvmviz/ui/playback.py:233-240 | a forward step from option j lands on option (j+1) mod n |
| Playback.StepsPosition | src/vvmviz/ui/playback.py:148-204 | k playback steps from option i land on option (i+k) mod n |
| Playback.FullCycle | src/vvmviz/ui/playback.py:148-204 | n playback steps return to the starting frame |
| Playback.PlaybackController.constructor | src/vvmviz/ui/playback.py:65-105 | playback starts stopped with session 0 |
| Playback.PlaybackController.TogglePlay | src/vvmviz/ui/playback.py:107-146 | flips playing, always bumps the session and schedules a step for the new session only when starting |
| Playback.PlaybackController.StepInternal | src/vvmviz/ui/playback.py:148-204 | a stale session or a stopped player changes nothing; a hidden or empty slider stops playback; otherwise it steps forward and reschedules |
| Playback.PlaybackController.Stop | src/vvmviz/ui/playback.py:206-215 | stops playback and bumps the session |
| Playback.PlaybackController.StepForward | src/vvmviz/ui/playback.py:217-240 | steps the slider forward when it is visible with options, else nothing changes |
| Playback.PlaybackController.StepBackward | src/vvmviz/ui/playback.py:242-270 | steps the slider backward when it is visible with options, else nothing changes |
| MapSelector.NearestIndex | src/vvmviz/ui/map_selector.py:310-311 | the first index of minimum distance to the given degree |
| MapSelector.NearestToCoordinate | src/vvmviz/ui/map_selector.py:310-311 | over distinct coordinates, a coordinate's nearest index is its own index |
| MapSelector.ClampIndices | src/vvmviz/ui/map_selector.py:279-280 | the start is `max(0, min(idx0, n-1))` and the end `max(start+1, min(idx1, n))`; hence `0 <= start < end <= n` when `n >= 1`, and in-range indices are unchanged |
| MapSelector.IndicesToDeg | src/vvmviz/ui/map_selector.py:256-285 | with coordinates loaded the two degrees are the coordinates at the clamped start and one before the clamped end (idx0 and idx1-1 for in-range indices); with none it raises |
| MapSelector.DegToIndices | src/vvmviz/ui/map_selector.py:287-317 | idx0 is the nearest index to the first degree, idx1 the nearest to the second moved past idx0, and both are in bounds |
| MapSelector.ReclickedBoxNarrows | src/vvmviz/ui/map_selector.py:256-317 | converting slider indices `(a, b)` to degrees and back gives `(a, b-1)` |
| MapSelector.DomainMapSelector.constructor | src/vvmviz/ui/map_selector.py:71-113 | a new selector keeps the sliders and has no coordinates, streams or clicks |
| MapSelector.DomainMapSelector.LoadCoordinates | src/vvmviz/ui/map_selector.py:115-254 | loading coordinates creates both streams and draws the box once |
| MapSelector.DomainMapSelector.OnTap | src/vvmviz/ui/map_selector.py:319-391 | ignored taps change nothing; a first click is stored; a second click clears the clicks and sets the sliders from the ordered corners, or keeps them when conversion fails |
| MapSelector.DomainMapSelector.OnSliderChange | src/vvmviz/ui/map_selector.py:393-417 | the box is redrawn unless updating from the map or before the box exists; the slider flag ends false |
| Shapefile.SliceBound | src/vvmviz/utils/shapefile.py:84 | a Python slice bound is clamped into the sequence, and negative bounds count from the end |
| Shapefile.PySlice | src/vvmviz/utils/shapefile.py:84 | a Python slice is always a contiguous run of the points and equals the plain slice for in-range bounds |
| Shapefile.KeptPieces | src/vvmviz/utils/shapefile.py:81-87 | only pieces of at least 3 points are kept |
| Shapefile.KeptPiecesAreRuns | src/vvmviz/utils/shapefile.py:77-87 | every kept piece is a contiguous run of the shape's points |
| Shapefile.SegmentsComeFromPolygons | src/vvmviz/utils/shapefile.py:71-87 | every segment comes from a polygon-type shape (types 5, 15, 25) |
| Shapefile.PiecesCoverPoints | src/vvmviz/utils/shapefile.py:77-84 | for well-formed part offsets the pieces concatenate back to the points |
| Shapefile.ShapeParts | src/vvmviz/utils/shapefile.py:75-87 | the loop over one shape's parts collects exactly its kept pieces |
| Shapefile.CollectSegments | src/vvmviz/utils/shapefile.py:71-87 | the loop over all shapes collects exactly the kept pieces in order |
| Shapefile.Rows | src/vvmviz/utils/shapefile.py:101-103 | a copied segment fills one row per point |
| Shapefile.PackedLength | src/vvmviz/utils/shapefile.py:95-97 | the merged buffer has total points plus one separator per segment |
| Shapefile.PackedPrefix | src/vvmviz/utils/shapefile.py:99-104 | the buffer for the first k segments is a prefix of the whole buffer |
| Shapefile.PackedLayout | src/vvmviz/utils/shapefile.py:99-104 | segment k starts at the sum of earlier lengths plus k, and the row after it is a separator |
| Shapefile.Separators | src/vvmviz/utils/shapefile.py:96-97 | the buffer starts as all separators |
| Shapefile.CopyInto | src/vvmviz/utils/shapefile.py:101-103 | copying a segment writes exactly its rows and leaves the rest of the buffer alone |
| Shapefile.MergeSegments | src/vvmviz/utils/shapefile.py:94-104 | the filled buffer is the packed layout of the segments |
| Shapefile.LoadBoundaryPaths | src/vvmviz/utils/shapefile.py:61-116 | a missing file and a read failure are reported; no segments gives an empty path; otherwise the merged buffer |
| Shapefile.Missing | src/vvmviz/utils/shapefile.py:146-148 | exactly the companion extensions whose files are missing, in order |
| Shapefile.ValidateShapefile | src/vvmviz/utils/shapefile.py:122-159 | a missing `.shp` or missing companions are reported; valid iff all files exist and the file reads |
| Colormaps.Flatten | src/vvmviz/plotting/colormaps.py:86 | the flattened list holds exactly the colormaps of all categories |
| Colormaps.PickDefault | src/vvmviz/plotting/colormaps.py:89 | the default is a listed colormap, and is `MPL_GnBu` iff that is listed |
| Colormaps.AllColormapsNonEmpty | src/vvmviz/plotting/colormaps.py:29-86 | the colormap list is not empty |
| Colormaps.DefaultColormap | src/vvmviz/plotting/colormaps.py:89 | the default colormap is a listed colormap |
| Colormaps.DefaultColormapIsGnBu | src/vvmviz/plotting/colormaps.py:89 | the default colormap is `MPL_GnBu` |
| Colormaps.GlobStar | src/vvmviz/plotting/colormaps.py:219 | the pattern `*` matches every name |
| Colormaps.GlobPrefixStar | src/vvmviz/plotting/colormaps.py:219 | `prefix*` matches a name iff the name starts with the prefix |
| Colormaps.ExactEntry | src/vvmviz/plotting/colormaps.py:214-215 | an exact key lookup returns the entry of the first matching key, none iff no key matches |
| Colormaps.WildcardEntry | src/vvmviz/plotting/colormaps.py:218-220 | the first `*` pattern that matches, none iff no pattern matches |
| Colormaps.GetVariableDefault | src/vvmviz/plotting/colormaps.py:182-222 | an exact key wins, then the first matching pattern, else no defaults |
| Colormaps.WindDefault | src/vvmviz/plotting/colormaps.py:203-207 | `u` gives `MPL_RdBu_r` with symmetric limits |
| Colormaps.OnlyTracerPattern | src/vvmviz/plotting/colormaps.py:96-175 | the only pattern in the table is `tr*`, so a pattern matches iff the name starts with `tr` |
| Colormaps.TracerDefault | src/vvmviz/plotting/colormaps.py:218-220 | any unlisted name starting with `tr` gets `WhiteBlueGreenYellowRed` |
| Colormaps.Tr1Default | src/vvmviz/plotting/colormaps.py:209-211 | `tr1` gets `WhiteBlueGreenYellowRed` |
| Colormaps.ToggleR | src/vvmviz/plotting/colormaps.py:287-291 | a trailing `_r` is stripped, otherwise one is appended |
| Colormaps.ToggleRTwice | src/vvmviz/plotting/colormaps.py:287-291 | toggling twice restores the name iff it does not end in two `_r` suffixes |
| Colormaps.ResolveNcl | src/vvmviz/plotting/colormaps.py:263-269 | raises exactly when fetching the NCL attribute raises (`hasattr` lets it through); an NCL object iff the library has the name and fetching succeeds; otherwise the name itself |
| Colormaps.ResolveColormap | src/vvmviz/plotting/colormaps.py:225-293 | raises exactly when the NCL fetch raises; otherwise, without reversal, the NCL resolution unchanged; with reversal, the reversed object, else the toggled name for a name or the unreversed object |
| Colormaps.GetColormapCategories | src/vvmviz/plotting/colormaps.py:296-313 | a copy of the categories table with its eight categories in order |
| Colormaps.GetAllColormaps | src/vvmviz/plotting/colormaps.py:316-331 | exactly the colormaps of all categories, in category order |
| Metadata.ExtractMetadata | src/vvmviz/utils/metadata.py:51-82 | name defaults to `unknown`, long name to the name and units to `N/A` |
| Metadata.FormatNumericTime | src/vvmviz/utils/metadata.py:40-45 | a numeric time is shown alone or followed by ` (units)` |
| Metadata.NumericTimeUnitsRecoverable | src/vvmviz/utils/metadata.py:40-45 | the units can be read back from the formatted time |
| Metadata.RankSpec | src/vvmviz/utils/metadata.py:142-146 | a coordinate's rank is its position in the preferred order, or 999 when unlisted |
| Metadata.WithRank | src/vvmviz/utils/metadata.py:143-146 | a rank block holds only coordinates of that rank |
| Metadata.ConcatRanksSorted | src/vvmviz/utils/metadata.py:143-146 | concatenating the rank blocks in increasing rank order is sorted by rank |
| Metadata.ConcatRanksPermutes | src/vvmviz/utils/metadata.py:143-146 | the rank blocks together are a permutation of the coordinates |
| Metadata.SortCoordsIsStableSort | src/vvmviz/utils/metadata.py:142-146 | coordinate ordering is a permutation sorted by rank that keeps the original order within each rank |
| Metadata.CoordLines | src/vvmviz/utils/metadata.py:148-196 | the coordinate section holds only coordinate lines |
| Metadata.CoordLinesListNonEmpty | src/vvmviz/utils/metadata.py:148-150 | exactly the non-empty coordinates are listed, in sorted order |
| Metadata.CoordinateLines | src/vvmviz/utils/metadata.py:148-196 | the loop emits the coordinate lines of the sorted coordinates |
| Metadata.BuildMetadataMarkdown | src/vvmviz/utils/metadata.py:85-198 | the lines built are the metadata document of the array and contour |
| Metadata.PreambleShape | src/vvmviz/utils/metadata.py:107-139 | the preamble has a contour section iff a contour is given and a data-range line iff the array has between 1 and 10^6 elements |
| Metadata.MetadataContourSection | src/vvmviz/utils/metadata.py:130-135 | the document has a contour section iff a contour is given |
| Metadata.MetadataDataRange | src/vvmviz/utils/metadata.py:121-125 | the document has a data-range line iff the array has between 1 and 10^6 elements |
| Metadata.DataRangeBounds | src/vvmviz/utils/metadata.py:122-125 | the data-range line shows the minimum and maximum value, in order |
| Metadata.Pow1024Increasing | src/vvmviz/utils/metadata.py:215-218 | unit thresholds increase with the unit |
| Metadata.UnitFitsUnique | src/vvmviz/utils/metadata.py:215-219 | at most one unit fits a size |
| Metadata.FormatDataSize | src/vvmviz/utils/metadata.py:201-219 | the unit chosen is the one that fits, and value·1024^k equals the size |
| Metadata.Shape | src/vvmviz/utils/metadata.py:240 | a variable's shape lists its dimension sizes in order |
| Metadata.SummarizeDataset | src/vvmviz/utils/metadata.py:222-243 | a header with the variable count, then one shape line per variable in order |
| AppStateModel.RecordedRange | src/vvmviz/state.py:117-125 | a complete range replaces the saved one; a missing or partial range leaves it |
| AppStateModel.RecordedRangeIdempotent | src/vvmviz/state.py:117-125 | recording the same range twice equals recording it once |
| AppStateModel.RecordingStoredRangeIsNoOp | src/vvmviz/state.py:118-123 | recording the stored range again changes nothing |
| AppStateModel.AppState.constructor | src/vvmviz/state.py:57-85 | the application state starts with its documented defaults |
| AppStateModel.AppState.RecordRanges | src/vvmviz/state.py:113-125 | x and y are recorded independently and nothing else changes |
| PlotBase.CalculateColorLimits | src/vvmviz/plotting/base.py:27-78 | locked limits are returned unchanged; otherwise no data raises, symmetric limits are `(-m, m)` covering the data with m attained, and plain limits are the data minimum and maximum |
| PlotBase.SymmetricLimitsBalanced | src/vvmviz/plotting/base.py:58-72 | unlocked symmetric limits always satisfy vmin = -vmax |
| PlotBase.Present | src/vvmviz/plotting/base.py:267-275 | the overlays present, skipping the missing ones |
| PlotBase.PresentKeepsAll | src/vvmviz/plotting/base.py:267-275 | with no missing overlay, all overlays are stacked in order |
| PlotBase.ComposePlot | src/vvmviz/plotting/base.py:237-279 | the composed plot is the base followed by the present overlays in order |
| PlotBase.ApplyRanges | src/vvmviz/plotting/base.py:282-323 | a range is applied iff it is complete; the element is unchanged |
| PlotBase.ApplyRangesIdempotent | src/vvmviz/plotting/base.py:282-323 | applying the same ranges twice equals applying them once |

## Left out

- Threads, locks and executor timing: prefetch is a sequential submit/start/finish state machine, and the cache lock and the file-I/O lock are dropped.
- FrameCache.CacheManager.Shutdown: the blocking wait for running prefetches is modelled as an idle precondition.
- Wall-clock time: the elapsed load time is a parameter of `WorkerFinish`.
- The prefetch loader, the VVM reader, xarray and dask: these are parameters (function-typed fields) returning a value or a failure. This includes `compute()`, `use_cache` and the `lru_cache` on `open_dataset`.
- File-system access (glob, directory listing, existence checks, the shapefile reader) and configuration loading: file names, listings, existence answers and shape records are inputs.
- Rendering: HoloViews/Bokeh/Panel construction, overlays, plot titles, notifications and logging. Message strings and number or date formatting are also left out; a formatted number is modelled by its value.
- Floating point: reals are exact, NaN does not occur, and the clim tolerance and wind trigonometry are not modelled.
- DataLoader.ParseTimeIndex: `\d` is modelled as ASCII digits only.
- Colormaps.GetVariableDefault: fnmatch is modelled for `*` and `?` on POSIX names; `[...]` classes and case normalisation are not.
- Copies and aliasing: dictionaries and lists are values, so the copies returned by the lookup functions and enrichment are immune to later mutation by construction.
- DataProcessor.Composite: arrays of different lengths give no composite. The source would instead align them by label.
- Metadata.CoordLines: datetime, single-value and time-named coordinate formatting are modelled only by which lines appear. The "complex coordinate" fallback is not modelled.
- Frames.Value: Python's numeric equality across `bool`, `int` and `float` (`1 == 1.0 == True`) is not modelled. Keys compare structurally, so RequestKeyIdentifies and the LRU identity of keys hold under that equality; the keys the source builds use one type per position.
- Colormaps.ResolveNcl: the NCL fetch is a function of the name, so a second `getattr` failing after `hasattr` succeeded, the only case the `try` catches, is not modelled.
- Shapefile.LoadBoundaryPaths: the `lru_cache(maxsize=10)` memoisation is not modelled; every call reads the file again, which gives the same result for the same file.
- AppController.Controller.SetupLevelSlider: option labels `f"{z:.0f} m"` can collide for levels less than a metre apart; the options are the level values, so such collisions in the option dictionary are not modelled.
- AppController.Controller.SetupTimeSlider: slider option labels are positions; the label strings and their collisions in the option dictionary are not modelled.
- Widget watcher cascades: Panel watchers firing on assignment, and a Select resetting its own value, are not modelled. Each handler is a method called explicitly.
- AppController: `_gather_plot_params` is modelled only by the time mapping (`SliderTime`) and the key (`KeyOf`).
- AppController: `load_simulations`, `on_simulation_change`, `load_data`, `_check_coordinate_bounds`, `on_contour_category_change` and the plot-building methods are not modelled. They orchestrate widgets and rendering around the modelled operations.
- `get_cache_manager` and `range_stream` singletons: only the construction with default capacity is modelled (`NewDefaultCacheManager`).
