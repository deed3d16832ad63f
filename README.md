# Historical Map Dating Game — a verified model

The Historical Map Dating Game shows a historical world map and asks the
player to guess its year. This project models its logic in Dafny, in three parts.

- **The canvas tile viewer (`map.js`).** It builds tile locators, with local
  files for zoom 1–3 and the CDN for zoom 4–6. It keeps a cache of image
  promises with a year-by-year fallback for missing front tiles, and it draws
  the half-open range of tiles that meets the canvas. It also handles drag,
  wheel zoom, resize and the maximum-zoom switch.
- **The game class `HistoricalMapGame` (`script.js`).** It covers the daily
  answer year hashed from the date, the guess state machine with at most six
  attempts, and input validation for the game and practice modes. It also
  covers the older integer zoom and drag handlers, the search for the latest
  existing front image, and the share text.
- **The manifest builder (`tool/summarize.py`).** It lists the 84 tile file
  names of zoom 1–3 and, for each one, the ascending list of year folders
  that hold it.

The project has these modules:

| file | module | what it holds |
|---|---|---|
| `options.dfy` | `Options` | the `Option` datatype |
| `decimal.dfy` | `Decimal` | `String(n)` and `padStart`, with injectivity |
| `tiles.dfy` | `Tiles` | `generateTileUrl` |
| `tile_cache.dfy` | `TileLoading` | `getTileImage`, as the class `TileCache` |
| `viewport.dfy` | `Viewport` | the module state and handlers of `map.js`, as the class `MapViewer` |
| `game.dfy` | `DatingGame` | `HistoricalMapGame` |
| `manifest.dfy` | `Manifest` | `find_png_files_and_save_locations` |

Notes on the model:

- **Numbers.** Zoom and viewport offsets are exact reals.
- **Powers of two.** `Math.pow(2, r)` for a fractional `r` is a function
  `exp2` the viewer is built with, and only its positivity is used. Powers
  of two with integer exponents are exact.
- **The minimum year.** `MAP_MIN_YEAR` is a constructor parameter.
- **Image loading.** An asynchronous load becomes an explicit event:
  `TileCache.LoadSucceeded` or `TileCache.LoadFailed`. A promise is an index
  into the cache's `promises` sequence.
- **Parsed input.** `parseInt` yields a `JsNum`, which is a whole number or
  NaN. Comparisons with NaN are false, as in JavaScript.
- **The current view.** A handler that calls `drawMap` ends with every
  back and front tile of the visible rectangle, at the current year and load
  zoom, present in the cache (`MapViewer.ShowsView`), and with the cache only
  grown (`TileLoading.Grows`).
- **The date string.** The daily year takes the date string as an input.
  `Math.random` and image probing are parameters as well.

## Model

| member | source | states |
|---|---|---|
| Tiles.TileUrl | map.js:20-38 | The locator is empty exactly when the zoom is outside 1..6 or the layer is neither 'back' nor 'front'. |
| Tiles.TileUrlScheme | map.js:21-34 | Zoom 1..3 gives a `./img/` path and zoom 4..6 a CDN address. The local front path is `./img/{year padded to 4}/Z{z}_{tileY}_{tileX}.png`. The CDN front address carries the unpadded year. |
| Tiles.BackUrlIgnoresYear | map.js:23-31 | The back-layer locator is the same for every year. |
| Tiles.TileUrlInjective | map.js:20-35 | Two equal non-empty locators of one layer name the same zoom and tile, and for the front layer the same year. |
| Tiles.TileNameInjective | tool/summarize.py:10 | The name `Z{z}_{a}_{b}.png` determines z, a and b. |
| Decimal.NatToStringSound | map.js:21 | `String(n)` of a natural is canonical decimal digits whose value is n. |
| Decimal.IntToStringInjective | map.js:21 | Different integers have different `String` renderings. |
| Decimal.PaddedIntInjective | map.js:21 | `String(year).padStart(w, '0')` still determines the year. |
| TileLoading.KeyStringInjective | map.js:41 | The string key `${retryYear}-${zoom}-${tileY}-${tileX}-${layer}` determines its five parts, even with negative numbers. So keying the cache by the parts is keying it by the string. |
| TileLoading.TileCache.constructor | map.js:18 | The cache starts empty. |
| TileLoading.TileCache.GetTileImage | map.js:40-70 | A hit returns the stored promise and changes nothing. An invalid request returns a null promise and stores nothing. A miss starts a load from the key's locator and stores it under the key. A valid key afterwards maps to the returned promise, the cache only grows, and the cache invariant is kept. |
| TileLoading.TileCache.LoadSucceeded | map.js:52 | The promise settles to the image loaded from its key's locator. The cache keys are unchanged. |
| TileLoading.TileCache.LoadFailed | map.js:53-63 | A front tile at zoom 4..6 above the minimum year is retried one year earlier. The original key is rebound to the retry's promise, and the retry reuses an existing entry for the earlier key. Every other failure deletes the key and settles the promise to null. |
| TileLoading.MissKeepsConsistent | map.js:46-68 | Inserting a new loading promise under a missing key keeps the cache invariant. |
| TileLoading.SuccessKeepsConsistent | map.js:52 | A successful load keeps the cache invariant, and its URL is the key's locator. |
| TileLoading.FailureKeepsConsistent | map.js:59-62 | Deleting the key and settling to null keeps the cache invariant. |
| TileLoading.RetryKeepsConsistent | map.js:54-58 | Rebinding the key to the earlier year's promise keeps the cache invariant. |
| TileLoading.SingleFlight | map.js:41-44 | At most one load per key is in flight. |
| TileLoading.RetriesDescend | map.js:54-57 | A retry names the same tile, strictly earlier and never below the minimum year, so retry chains end. |
| Viewport.LoadZoomInRange | map.js:139-141 | For a zoom in range, the clamped load zoom is its integer part, within 1..maxZoom. |
| Viewport.TileSpanExact | map.js:148-157 | `[floor(-v/s), ceil((W-v)/s))` holds exactly the tiles whose screen interval overlaps the canvas. |
| Viewport.GridMembers | map.js:161-162 | The nested loops visit exactly the tiles of the rectangle. |
| Viewport.GridOrdered | map.js:161-162 | The nested loops visit the tiles in row-major order, so each tile once. |
| Viewport.GridSize | map.js:161-162 | The nested loops visit (rows × columns) tiles. |
| Viewport.VisibleGridExact | map.js:143-162 | `drawMap` visits exactly the tiles whose square meets the canvas. |
| Viewport.WheelAnchorKeepsPoint | map.js:224-233 | After re-anchoring, `(mouse - v') / newScale == ratio * (mouse - v) / oldScale`: the map point under the cursor stays put. |
| Viewport.WheelZoomStep | map.js:212-218 | A wheel notch moves the zoom at most 0.1 toward the wheel's direction and stays in `[1, max + 0.99]`. It leaves the zoom unchanged exactly at the bound it pushes against. |
| Viewport.MapViewer.constructor | map.js:1-18 | The initial module state. |
| Viewport.MapViewer.DrawMap | map.js:131-176 | Without a canvas or a truthy year nothing happens. Otherwise the back and then the front request of every visible tile are issued in loop order, drawn at `v + t*size` with side `size`, and each draw waits on the promise the cache holds under its key afterwards. The cache only grows: every earlier key keeps its promise and earlier promises are untouched. |
| Viewport.MapViewer.DrawRows | map.js:161-175 | The outer loop issues the draws of the whole tile rectangle, row by row; each draw waits on the promise cached under its key, and the cache only grows. |
| Viewport.MapViewer.DrawRow | map.js:162-174 | The inner loop appends the draws of one row, left to right; each draw waits on the promise cached under its key, and the cache only grows. |
| Viewport.MapViewer.DrawTile | map.js:163-173 | One loop body issues the back draw, then the front draw, at the tile's place, each waiting on the promise now cached under its key; earlier draws keep theirs, and the cache only grows. |
| Viewport.ServedExtend | map.js:163-173 | Draws that wait on the promises cached under their keys still do so after the cache grows, and the draws of one more tile extend them. |
| Viewport.MapViewer.Resize | map.js:85-92 | The canvas takes the container's size and the viewport is set to `(W/2 - 256, H/2 - 256)`. The redraw leaves every visible tile of the current view requested (nothing is drawn without a context or a year) and the cache only grows. |
| Viewport.MapViewer.InitializeMap | map.js:72-116 | It acts only once and only with a canvas; otherwise nothing changes. With a canvas it takes the context and the canvas size, centres the viewport, sets the maximum zoom from the checkbox and clamps the zoom to it (both unchanged without a checkbox), marks the map initialised and leaves the current view requested. |
| Viewport.MapViewer.AttachCanvas | map.js:83-114 | The found-canvas path of `initializeMap`: context and size taken, viewport centred, checkbox maximum and clamped zoom applied, map initialised, current view requested, cache only grown. |
| Viewport.MapViewer.LoadMapForYear | map.js:118-125 | The year becomes the given one and the current view is requested afterwards. When already initialised (or without a canvas) nothing else of the viewer changes; otherwise the fields take the values `initializeMap` gives them. |
| Viewport.MapViewer.GetCurrentMapYear | map.js:127-129 | It returns the year, or the minimum year when the year is unset or 0. |
| Viewport.MapViewer.OnPointerDown | map.js:178-183 | A drag starts at the pointer, and the viewport stays put. |
| Viewport.MapViewer.OnPointerUp | map.js:185-188 | The drag ends, and nothing else changes. |
| Viewport.MapViewer.OnPointerMove | map.js:190-202 | While dragging, the viewport moves by the pointer's delta since the last event, the last pointer is updated and the moved view is requested. Otherwise nothing changes. |
| Viewport.MapViewer.OnWheel | map.js:206-239 | The zoom becomes the clamped step. If it moved, both axes keep the point under the cursor and the new view is requested. Otherwise nothing changes. |
| Viewport.MapViewer.ZoomAbout | map.js:220-235 | The zoom takes the new value, both axes keep the map point under the cursor, the new view is requested and nothing else of the viewer changes. |
| Viewport.MapViewer.SetZoomLevelConstraint | map.js:241-248 | The maximum zoom becomes 6 or 3. A zoom above `max + 0.99` drops to the maximum, and otherwise stays. The viewer invariant (zoom within `[1, max + 0.99]`) is kept and the current view is requested. |
| Viewport.ConstrainZoomInRange | map.js:241-245 | From a zoom of at least 1, the constrained zoom lies in `[1, max + 0.99]`, and it is unchanged exactly when the zoom was within the bound. |
| DatingGame.ToInt32 | script.js:43-44 | The 32-bit signed reading lies in `[-2^31, 2^31)` and is congruent to its input modulo 2^32. |
| DatingGame.HashStep | script.js:43-44 | `((h << 5) - h) + c` with `& h` is `31h + c` reduced to 32 bits. |
| DatingGame.DateStringShape | script.js:34-37 | For a four-digit year and a calendar month and day, the date string is eight digits. |
| DatingGame.HashDate | script.js:40-45 | The loop computes the date hash as the per-character 31x+c recurrence. |
| DatingGame.GenerateDailyYear | script.js:29-48 | The daily year is `|hash| % 2023 + 1`, always in `[1, 2023]`. |
| DatingGame.Judge | script.js:315-329 | Correct iff equal, too high iff greater, too low otherwise, and `isCorrect` iff equal. |
| DatingGame.IntegerWheelZoomStep | script.js:149-150 | A notch moves the integer zoom one level, out when deltaY > 0, and stays in `[1, maxZoom]`. It is unchanged exactly at the bound. |
| DatingGame.PracticeAnswerInRange | script.js:446 | For min ≤ max, the practice answer lies in `[min, max]`. |
| DatingGame.FrontPathIsLocalFront | script.js:239-240 | The probed path is the viewer's local front locator of the same file name. |
| DatingGame.FindAvailableImage | script.js:237-247 | It returns the path of the greatest year in `[1, startYear]` whose image exists, or null iff there is none. |
| DatingGame.MarkFollowsAnswer | script.js:403 | Target, up or down follow equality, greater, and otherwise. |
| DatingGame.ShareLineIsOneLine | script.js:404 | Each guess line has exactly one line break. |
| DatingGame.ShareLinesCount | script.js:402-405 | The guess part has one line per guess. |
| DatingGame.ShareTextLines | script.js:398-405 | The shared text has the four header line breaks plus one per guess. |
| DatingGame.WonIsLastGuess | script.js:383 | In a valid round, "some guess is correct" is "the last guess is correct". |
| DatingGame.HistoricalMapGame.constructor | script.js:3-26 | A new game in 'game' mode whose answer is the daily year hashed from the date string, and an empty round. |
| DatingGame.HistoricalMapGame.InitializeGame | script.js:51-60 | The 'game' mode takes the daily year hashed from the date, other modes keep the answer, and the round becomes empty. |
| DatingGame.HistoricalMapGame.ProcessGuess | script.js:310-338 | Once the game is over it changes nothing. Otherwise it adds exactly one attempt and one judged entry, and the game ends iff the attempts are used up or the guess is right. The round invariant is kept. |
| DatingGame.HistoricalMapGame.EndGame | script.js:374-390 | The game is over, and `won` is whether some guess was right. |
| DatingGame.HistoricalMapGame.ResetGame | script.js:420-431 | An empty round whose answer is the daily year hashed from the date. |
| DatingGame.HistoricalMapGame.MakeGuess | script.js:279-290 | The guess is accepted iff it is a number in `[1, 2023]`. A refused guess changes nothing, and an accepted one is processed. Mode, zoom and drag state never change. |
| DatingGame.HistoricalMapGame.MakePracticeGuess | script.js:293-307 | The guess is refused iff it is NaN or 0, below the minimum or above the maximum, with NaN bounds refusing nothing. Mode, zoom and drag state never change. |
| DatingGame.HistoricalMapGame.StartPractice | script.js:434-453 | It is refused iff min > max, and a refusal changes nothing. Otherwise the round is empty and the answer lies in `[min, max]`, or is NaN when a bound is NaN. The drag state never changes. |
| DatingGame.HistoricalMapGame.HandleWheel | script.js:146-158 | The zoom becomes the clamped integer step, and a reload happens iff it changed. |
| DatingGame.HistoricalMapGame.HandleMouseDown | script.js:99-105 | A drag starts, remembering the pointer and the map position. |
| DatingGame.HistoricalMapGame.HandleMouseMove | script.js:107-118 | While dragging, the map sits at its start position plus the total movement since the drag began. Otherwise nothing changes. |
| DatingGame.HistoricalMapGame.HandleMouseUp | script.js:120-123 | The drag ends, and the map stays where it is. |
| DatingGame.HistoricalMapGame.ShareResult | script.js:393-405 | The shared text is the header followed by the guess lines in order. |
| Manifest.LevelsMembers | tool/summarize.py:6-10 | The loops produce exactly the tiles with z in 1..3 and x, y in `[0, 2^z)`. |
| Manifest.LevelsIncreasing | tool/summarize.py:6-10 | The loops produce the tiles in strictly increasing (z, x, y) order. |
| Manifest.TargetCount | tool/summarize.py:5-10 | There are 4 + 16 + 64 = 84 target names. |
| Manifest.LevelNamesComplete | tool/summarize.py:5-10 | Every tile of zoom 1..3 has its name listed. |
| Manifest.LevelNamesSound | tool/summarize.py:5-10 | Every listed name is the name of such a tile. |
| Manifest.LevelNamesDistinct | tool/summarize.py:5-10 | No name is listed twice. |
| Manifest.TargetNames | tool/summarize.py:5-10 | The nested loops build exactly the target list. |
| Manifest.ListLevels | tool/summarize.py:6-10 | The zoom loop appends the names of levels 1..top. |
| Manifest.ListSquare | tool/summarize.py:8-10 | The x loop appends the names of one level. |
| Manifest.ListColumn | tool/summarize.py:9-10 | The y loop appends the names of one column. |
| Manifest.YearsOfMembers | tool/summarize.py:13-19 | Year i is listed for a name iff 1 ≤ i ≤ n and folder `{i:04d}` exists and holds that name. |
| Manifest.YearsOfBounded | tool/summarize.py:13 | No year beyond n is listed. |
| Manifest.YearsOfAscending | tool/summarize.py:13-19 | Every year list is strictly ascending, hence without duplicates. |
| Manifest.FindLocations | tool/summarize.py:4-21 | The keys are exactly the target names, and each value is that name's ascending year list. Other file names are ignored. |
| Manifest.BuildManifest | tool/summarize.py:29-34 | The program's run searches the folders 1..2022: the keys are the target names, each with its ascending year list over that range. |
| Manifest.ListedYears | tool/summarize.py:13-19 | In a map of `YearsOf` lists, year j is in a name's list iff 1 ≤ j ≤ n and folder `{j:04d}` exists and holds that name. |
| Manifest.LocateNames | tool/summarize.py:11-21 | The folder loop keeps the keys and completes every year list up to the folder count. |
| Manifest.ScanFolder | tool/summarize.py:14-19 | One folder extends the lists of the names it holds, and only when it exists. |
| Manifest.RecordFolder | tool/summarize.py:17-19 | Each tracked name among the folder's files gets the year appended. Other files are ignored, and the keys never change. |

## Left out

- The DOM, the canvas and CSS are not modelled: clearing and filling the
  canvas, `drawImage`, cursor styles, the loading overlay, the transform
  string of `updateMapTransform`, `updateMapInfo`, `updateGameDisplay`,
  the modals and event-listener registration. `DrawMap` returns the draws it
  requests instead of painting them.
- The order in which asynchronous loads settle and in which draws land on
  the canvas is not modelled. Each load outcome is an explicit event method,
  and any order of events is allowed.
- IEEE floating point is not modelled. `Math.pow(2, r)` of a fractional `r`
  is an abstract positive function. `toFixed` and `parseFloat` at
  map.js:244 are the identity on the integers 3 and 6.
- The `year` parameter of `getTileImage` is not modelled: it only passes
  through to the retry call and never affects a key or a locator.
- `console` output is not modelled, nor is the progress printing of the
  manifest builder.
- `Math.random`, the clock and the JST conversion are inputs.
  `StartPractice` takes the random value, and `GenerateDailyYear` takes the
  date string. `DateStringShape` states what that string looks like for a
  calendar date.
- `imageExists` is a predicate parameter of `FindAvailableImage`.
- `getBoundingClientRect` is not modelled: `OnWheel` takes the mouse
  position relative to the canvas.
- `loadSettings` and `saveSettings` (localStorage) are not modelled.
- `navigator.share` and the clipboard are not modelled; only the text
  `ShareResult` builds is.
- The touch handlers of `script.js` are not modelled: they only forward to
  the mouse handlers.
- `switchMode` and the game's own `loadMapForYear`/`loadMapLayer`, which set
  background images from random tiles, are not modelled. The model's
  operations do not call them, and `HandleWheel` reports a reload as a
  boolean.
- The `isPractice` flag of `processGuess`/`endGame` is not modelled: it only
  selects which elements are updated.
- `parseInt` is not modelled: the input is already a `JsNum`, so partial
  numeric prefixes are outside the model.
- `tool/download.py` is not part of this model.
- The JSON file written by the manifest builder is not modelled; the result
  is the dictionary itself.
- The manifest's directory tree is a map from folder name to the set of
  file names in it. `os.listdir` order is not modelled, and it cannot
  matter, because each folder adds its year at most once to each list.
