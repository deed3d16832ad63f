/**
 * The canvas map viewer of map.js: the module-level state (viewport offset,
 * continuous zoom, maximum zoom, displayed year, drag state) and the
 * handlers that change it, and `drawMap`, which walks the half-open range
 * of tiles that meets the canvas at the integer load zoom and asks the tile
 * cache for the back and the front image of each.
 *
 * Numbers are exact reals. `Math.pow(2, r)` for the fractional part of the
 * zoom is the function `exp2` the viewer is built with, of which only
 * positivity is assumed; powers of two with an integer exponent are exact.
 */
module Viewport {
  import opened Options
  import opened Tiles
  import opened TileLoading

  const TILE_SIZE: real := 256.0
  const ZOOM_SPEED: real := 0.1

  function Min(a: real, b: real): real { if a <= b then a else b }

  function Max(a: real, b: real): real { if a >= b then a else b }

  /** `Math.ceil`. */
  function Ceil(r: real): int { -((-r).Floor) }

  /** 2 to an integer power, exactly. */
  function Pow2Int(n: int): (r: real)
    ensures r > 0.0
    decreases if n >= 0 then n else -n
  {
    if n == 0 then 1.0 else if n > 0 then 2.0 * Pow2Int(n - 1) else Pow2Int(n + 1) / 2.0
  }

  /** `Math.min(Math.max(Math.floor(zoom), 1), maxZoom)`: the zoom whose tiles are loaded. */
  function LoadZoom(zoom: real, maxZoom: int): int
  {
    var z := if zoom.Floor >= 1 then zoom.Floor else 1;
    if z <= maxZoom then z else maxZoom
  }

  /**
   * Inside the zoom range the clamp does nothing: the tiles loaded are those
   * of the integer part of the zoom, scaled by 2 to the fractional part.
   */
  lemma LoadZoomInRange(zoom: real, maxZoom: int)
    requires 1.0 <= zoom <= maxZoom as real + 0.99
    ensures LoadZoom(zoom, maxZoom) == zoom.Floor
    ensures 1 <= LoadZoom(zoom, maxZoom) <= maxZoom
    ensures 0.0 <= zoom - LoadZoom(zoom, maxZoom) as real < 1.0
  {
  }

  /**
   * The tiles `[first, last)` drawn along one axis for a viewport offset,
   * a canvas extent and a rendered tile size:
   * `floor(-offset / size)` and `ceil((extent - offset) / size)`.
   */
  function TileSpan(offset: real, extent: real, size: real): (span: (int, int))
    requires size > 0.0
  {
    ((-offset / size).Floor, Ceil((extent - offset) / size))
  }

  /**
   * The span holds exactly the tiles whose on-screen interval
   * `(offset + t*size, offset + (t+1)*size)` overlaps the canvas `(0, extent)`.
   */
  lemma TileSpanExact(offset: real, extent: real, size: real, t: int)
    requires size > 0.0
    ensures var span := TileSpan(offset, extent, size);
      span.0 <= t < span.1 <==> offset + (t + 1) as real * size > 0.0 && offset + t as real * size < extent
  {
    var a, b := -offset / size, (extent - offset) / size;
    assert a * size == -offset && b * size == extent - offset;
    var f, c := a.Floor, Ceil(b);
    assert f as real <= a < f as real + 1.0;
    assert c as real - 1.0 < b <= c as real;
    // dividing by the positive size preserves the order
    assert (t + 1) as real > a <==> (t + 1) as real * size > a * size;
    assert t as real < b <==> t as real * size < b * size;
  }

  /** The tiles `(y, x)` of row `y` with `sx <= x < ex`, left to right. */
  function Row(y: int, sx: int, ex: int): seq<(int, int)>
    decreases ex - sx
  {
    if ex <= sx then [] else Row(y, sx, ex - 1) + [(y, ex - 1)]
  }

  /** The tiles of rows `sy <= y < ey`, top to bottom: the order of the nested loops of `drawMap`. */
  function Grid(sy: int, ey: int, sx: int, ex: int): seq<(int, int)>
    decreases ey - sy
  {
    if ey <= sy then [] else Grid(sy, ey - 1, sx, ex) + Row(ey - 1, sx, ex)
  }

  predicate Before(a: (int, int), b: (int, int))
  {
    a.0 < b.0 || (a.0 == b.0 && a.1 < b.1)
  }

  lemma {:induction false} RowShape(y: int, sx: int, ex: int)
    ensures var r := Row(y, sx, ex);
      && |r| == (if ex <= sx then 0 else ex - sx)
      && (forall i :: 0 <= i < |r| ==> r[i] == (y, sx + i))
    decreases ex - sx
  {
    if ex > sx {
      RowShape(y, sx, ex - 1);
    }
  }

  /** The grid walked by `drawMap` holds every tile of the range and nothing else. */
  lemma {:induction false} GridMembers(sy: int, ey: int, sx: int, ex: int)
    ensures forall t: (int, int) :: t in Grid(sy, ey, sx, ex) <==> sy <= t.0 < ey && sx <= t.1 < ex
    decreases ey - sy
  {
    if ey > sy {
      GridMembers(sy, ey - 1, sx, ex);
      RowShape(ey - 1, sx, ex);
      var r := Row(ey - 1, sx, ex);
      forall t: (int, int) | t.0 == ey - 1 && sx <= t.1 < ex ensures t in r {
        assert r[t.1 - sx] == t;
      }
    }
  }

  /** ... in row-major order, so each tile once ... */
  lemma {:induction false} GridOrdered(sy: int, ey: int, sx: int, ex: int)
    ensures forall i, j :: 0 <= i < j < |Grid(sy, ey, sx, ex)| ==> Before(Grid(sy, ey, sx, ex)[i], Grid(sy, ey, sx, ex)[j])
    decreases ey - sy
  {
    if ey > sy {
      GridOrdered(sy, ey - 1, sx, ex);
      GridMembers(sy, ey - 1, sx, ex);
      RowShape(ey - 1, sx, ex);
      var g0, r := Grid(sy, ey - 1, sx, ex), Row(ey - 1, sx, ex);
      var g := g0 + r;
      forall i, j | 0 <= i < j < |g| ensures Before(g[i], g[j]) {
        if j < |g0| {
          assert g[i] == g0[i] && g[j] == g0[j];
          assert Before(g0[i], g0[j]);
        } else if i < |g0| {
          assert g0[i] in g0;
          assert g0[i].0 < ey - 1;
          assert g[i] == g0[i] && g[j] == r[j - |g0|];
          assert r[j - |g0|].0 == ey - 1;
        } else {
          assert g[i] == r[i - |g0|] && g[j] == r[j - |g0|];
          assert r[i - |g0|] == (ey - 1, sx + i - |g0|);
          assert r[j - |g0|] == (ey - 1, sx + j - |g0|);
        }
      }
    }
  }

  /** ... and `(ey - sy) * (ex - sx)` tiles in all. */
  lemma {:induction false} GridSize(sy: int, ey: int, sx: int, ex: int)
    requires sy <= ey && sx <= ex
    ensures |Grid(sy, ey, sx, ex)| == (ey - sy) * (ex - sx)
    decreases ey - sy
  {
    if ey > sy {
      GridSize(sy, ey - 1, sx, ex);
      RowShape(ey - 1, sx, ex);
      assert (ey - 1 - sy) * (ex - sx) + (ex - sx) == (ey - sy) * (ex - sx);
    }
  }

  /**
   * The tiles `drawMap` visits for a viewport, a canvas and a tile side are
   * exactly those whose square overlaps the canvas.
   */
  lemma VisibleGridExact(offsetX: real, offsetY: real, width: real, height: real, size: real, t: (int, int))
    requires size > 0.0
    ensures var xs, ys := TileSpan(offsetX, width, size), TileSpan(offsetY, height, size);
      t in Grid(ys.0, ys.1, xs.0, xs.1) <==>
        && offsetX + (t.1 + 1) as real * size > 0.0 && offsetX + t.1 as real * size < width
        && offsetY + (t.0 + 1) as real * size > 0.0 && offsetY + t.0 as real * size < height
  {
    var xs, ys := TileSpan(offsetX, width, size), TileSpan(offsetY, height, size);
    assert t in Grid(ys.0, ys.1, xs.0, xs.1) <==> ys.0 <= t.0 < ys.1 && xs.0 <= t.1 < xs.1 by {
      GridMembers(ys.0, ys.1, xs.0, xs.1);
    }
    assert xs.0 <= t.1 < xs.1 <==> offsetX + (t.1 + 1) as real * size > 0.0 && offsetX + t.1 as real * size < width by {
      TileSpanExact(offsetX, width, size, t.1);
    }
    assert ys.0 <= t.0 < ys.1 <==> offsetY + (t.0 + 1) as real * size > 0.0 && offsetY + t.0 as real * size < height by {
      TileSpanExact(offsetY, height, size, t.0);
    }
  }

  /** Where a tile image is drawn: its top-left corner and its side. */
  datatype Placement = Placement(x: real, y: real, size: real)

  /** `drawX = viewport.x + tileX * TILE_SIZE * scale`, and so on. */
  function Place(t: (int, int), offsetX: real, offsetY: real, size: real): Placement
  {
    Placement(offsetX + t.1 as real * size, offsetY + t.0 as real * size, size)
  }

  /** One `getTileImage(...).then(img => drawImage(img, ...))` issued by `drawMap`. */
  datatype PendingDraw = PendingDraw(layer: string, tile: (int, int), at: Placement, image: Handle)

  /**
   * The new offset `mouse - (mouse - offset) * loadRatio * (newScale / oldScale)`
   * that `onWheel` gives the viewport on one axis.
   */
  function WheelAnchor(mouse: real, offset: real, loadRatio: real, oldScale: real, newScale: real): real
    requires oldScale > 0.0
  {
    mouse - (mouse - offset) * loadRatio * (newScale / oldScale)
  }

  /**
   * Moving the viewport from `before` to `after` while the tile scale goes
   * from `oldScale` to `newScale` keeps the map point under the cursor in
   * place: its position in tiles of the new load level is `loadRatio` times
   * its position in tiles of the old one.
   */
  predicate KeepsPointUnder(mouse: real, before: real, after: real, loadRatio: real, oldScale: real, newScale: real)
    requires oldScale > 0.0 && newScale > 0.0
  {
    (mouse - after) / newScale == loadRatio * (mouse - before) / oldScale
  }

  /** The re-anchored offset keeps the point under the cursor. */
  lemma WheelAnchorKeepsPoint(mouse: real, offset: real, loadRatio: real, oldScale: real, newScale: real)
    requires oldScale > 0.0 && newScale > 0.0
    ensures KeepsPointUnder(mouse, offset, WheelAnchor(mouse, offset, loadRatio, oldScale, newScale),
                            loadRatio, oldScale, newScale)
  {
    var d := mouse - offset;
    assert mouse - WheelAnchor(mouse, offset, loadRatio, oldScale, newScale) == d * loadRatio * (newScale / oldScale);
    assert d * loadRatio * (newScale / oldScale) / newScale == d * loadRatio / oldScale;
  }

  /** `Math.min(Math.max(zoom ± ZOOM_SPEED, 1.0), maxZoom + 0.99)`, in when `deltaY < 0`. */
  function WheelZoom(zoom: real, deltaY: real, maxZoom: int): real
  {
    var stepped := if deltaY < 0.0 then zoom + ZOOM_SPEED else zoom - ZOOM_SPEED;
    Min(Max(stepped, 1.0), maxZoom as real + 0.99)
  }

  /**
   * From a zoom in range, one wheel notch moves at most `ZOOM_SPEED` in the
   * direction of the wheel and stays in range; it leaves the zoom alone only
   * at the bound it pushes against.
   */
  lemma WheelZoomStep(zoom: real, deltaY: real, maxZoom: int)
    requires maxZoom >= 1 && 1.0 <= zoom <= maxZoom as real + 0.99
    ensures var z := WheelZoom(zoom, deltaY, maxZoom);
      && 1.0 <= z <= maxZoom as real + 0.99
      && (deltaY < 0.0 ==> zoom <= z <= zoom + ZOOM_SPEED)
      && (deltaY >= 0.0 ==> zoom - ZOOM_SPEED <= z <= zoom)
      && (z == zoom <==> (deltaY < 0.0 && zoom == maxZoom as real + 0.99) || (deltaY >= 0.0 && zoom == 1.0))
  {
  }

  /** The maximum zoom the zoom checkbox selects. */
  function MaxZoomOf(isChecked: bool): int { if isChecked then 6 else 3 }

  /** The zoom `setZoomLevelConstraint` leaves: one above `maxZoom + 0.99` drops to `maxZoom`. */
  function ConstrainZoom(zoom: real, maxZoom: int): real
  {
    if zoom > maxZoom as real + 0.99 then maxZoom as real else zoom
  }

  /**
   * Switching the maximum zoom keeps the zoom in the new range
   * `[1, maxZoom + 0.99]`, and changes it only when it was above that range.
   */
  lemma ConstrainZoomInRange(zoom: real, isChecked: bool)
    requires zoom >= 1.0
    ensures var z := ConstrainZoom(zoom, MaxZoomOf(isChecked));
      && 1.0 <= z <= MaxZoomOf(isChecked) as real + 0.99
      && (z == zoom <==> zoom <= MaxZoomOf(isChecked) as real + 0.99)
  {
  }

  /**
   * `draws` holds, for each tile in `tiles` and in that order, the back and
   * then the front image, both placed at the tile's position.
   */
  predicate DrawnInOrder(draws: seq<PendingDraw>, tiles: seq<(int, int)>, offsetX: real, offsetY: real, size: real)
  {
    && |draws| == 2 * |tiles|
    && forall k :: 0 <= k < |tiles| ==>
      && draws[2 * k] == PendingDraw("back", tiles[k], Place(tiles[k], offsetX, offsetY, size), draws[2 * k].image)
      && draws[2 * k + 1] == PendingDraw("front", tiles[k], Place(tiles[k], offsetX, offsetY, size), draws[2 * k + 1].image)
  }

  /** Both layers of every tile in `tiles`, at `year` and `level`, have a cache entry. */
  predicate Requested(entries: map<TileKey, nat>, year: int, level: int, tiles: seq<(int, int)>)
  {
    forall k :: 0 <= k < |tiles| ==>
      TileKey(year, level, tiles[k].0, tiles[k].1, "back") in entries
      && TileKey(year, level, tiles[k].0, tiles[k].1, "front") in entries
  }

  lemma DrawnExtend(draws: seq<PendingDraw>, tiles: seq<(int, int)>, offsetX: real, offsetY: real, size: real,
                    t: (int, int), back: Handle, front: Handle)
    requires DrawnInOrder(draws, tiles, offsetX, offsetY, size)
    ensures var at := Place(t, offsetX, offsetY, size);
      DrawnInOrder(draws + [PendingDraw("back", t, at, back), PendingDraw("front", t, at, front)],
                   tiles + [t], offsetX, offsetY, size)
  {
    var at := Place(t, offsetX, offsetY, size);
    var d := draws + [PendingDraw("back", t, at, back), PendingDraw("front", t, at, front)];
    var ts := tiles + [t];
    forall k | 0 <= k < |ts|
      ensures d[2 * k] == PendingDraw("back", ts[k], Place(ts[k], offsetX, offsetY, size), d[2 * k].image)
      ensures d[2 * k + 1] == PendingDraw("front", ts[k], Place(ts[k], offsetX, offsetY, size), d[2 * k + 1].image)
    {
      if k < |tiles| {
        assert d[2 * k] == draws[2 * k] && d[2 * k + 1] == draws[2 * k + 1];
      }
    }
  }

  /**
   * Every draw waits on the promise the cache holds for its key: for each
   * tile of `tiles`, in order, the back draw on the back key's promise and
   * the front draw on the front key's.
   */
  predicate Served(draws: seq<PendingDraw>, entries: map<TileKey, nat>, year: int, level: int, tiles: seq<(int, int)>)
  {
    && |draws| == 2 * |tiles|
    && Requested(entries, year, level, tiles)
    && forall k :: 0 <= k < |tiles| ==>
      && draws[2 * k].image == Promise(entries[TileKey(year, level, tiles[k].0, tiles[k].1, "back")])
      && draws[2 * k + 1].image == Promise(entries[TileKey(year, level, tiles[k].0, tiles[k].1, "front")])
  }

  /**
   * The draws of one more tile, waiting on the promises now stored under its
   * keys, keep `Served` once the cache has only grown.
   */
  lemma ServedExtend(draws: seq<PendingDraw>, e0: map<TileKey, nat>, p0: seq<TilePromise>,
                     e1: map<TileKey, nat>, p1: seq<TilePromise>, year: int, level: int,
                     tiles: seq<(int, int)>, t: (int, int), at: Placement, back: Handle, front: Handle)
    requires Served(draws, e0, year, level, tiles) && Grows(e0, p0, e1, p1)
    requires TileKey(year, level, t.0, t.1, "back") in e1 && back == Promise(e1[TileKey(year, level, t.0, t.1, "back")])
    requires TileKey(year, level, t.0, t.1, "front") in e1 && front == Promise(e1[TileKey(year, level, t.0, t.1, "front")])
    ensures Served(draws + [PendingDraw("back", t, at, back), PendingDraw("front", t, at, front)], e1, year, level, tiles + [t])
  {
    RequestedExtend(e0, e1, year, level, tiles, t);
    var d := draws + [PendingDraw("back", t, at, back), PendingDraw("front", t, at, front)];
    var ts := tiles + [t];
    forall k | 0 <= k < |ts|
      ensures d[2 * k].image == Promise(e1[TileKey(year, level, ts[k].0, ts[k].1, "back")])
      ensures d[2 * k + 1].image == Promise(e1[TileKey(year, level, ts[k].0, ts[k].1, "front")])
    {
      if k < |tiles| {
        assert ts[k] == tiles[k] && d[2 * k] == draws[2 * k] && d[2 * k + 1] == draws[2 * k + 1];
      }
    }
  }

  lemma RequestedExtend(before: map<TileKey, nat>, after: map<TileKey, nat>, year: int, level: int,
                        tiles: seq<(int, int)>, t: (int, int))
    requires Requested(before, year, level, tiles)
    requires before.Keys <= after.Keys
    requires TileKey(year, level, t.0, t.1, "back") in after && TileKey(year, level, t.0, t.1, "front") in after
    ensures Requested(after, year, level, tiles + [t])
  {
    var ts := tiles + [t];
    forall k | 0 <= k < |ts|
      ensures TileKey(year, level, ts[k].0, ts[k].1, "back") in after
      ensures TileKey(year, level, ts[k].0, ts[k].1, "front") in after
    {
      if k < |tiles| {
        assert ts[k] == tiles[k];
      }
    }
  }

  /** What `initializeMap` finds in the page: the canvas's container size, and the zoom checkbox. */
  datatype Page = Page(canvas: Option<(nat, nat)>, zoomCheckbox: Option<bool>)

  class MapViewer {
    /** `Math.pow(2, r)` for the fractional part `r` of a zoom. */
    const exp2: real -> real
    /** `MAP_MIN_YEAR`, which the page defines. */
    const minYear: int
    /** `tileCache`. */
    const tileCache: TileCache

    var isMapInitialized: bool
    /** `mapCtx` is set: the canvas was found. */
    var hasContext: bool
    var canvasWidth: nat
    var canvasHeight: nat
    var currentZoomLevel: real
    var maxZoomLevel: int
    var currentMapYear: Option<int>
    var viewportX: real
    var viewportY: real
    var isDragging: bool
    var lastPointerX: real
    var lastPointerY: real

    ghost predicate Valid()
      reads this, tileCache
    {
      && tileCache.Valid() && tileCache.minYear == minYear
      && (forall r :: exp2(r) > 0.0)
      && (maxZoomLevel == 3 || maxZoomLevel == 6)
      && 1.0 <= currentZoomLevel <= maxZoomLevel as real + 0.99
    }

    /** The module's initial state. */
    constructor (exp2: real -> real, minYear: int)
      requires forall r :: exp2(r) > 0.0
      ensures Valid() && fresh(tileCache)
      ensures this.exp2 == exp2 && this.minYear == minYear
      ensures !isMapInitialized && !hasContext && currentMapYear == None && !isDragging
      ensures currentZoomLevel == 1.0 && maxZoomLevel == 3
      ensures viewportX == 0.0 && viewportY == 0.0 && lastPointerX == 0.0 && lastPointerY == 0.0
      ensures tileCache.entries == map[] && tileCache.promises == []
    {
      this.exp2 := exp2;
      this.minYear := minYear;
      tileCache := new TileCache(minYear);
      isMapInitialized := false;
      hasContext := false;
      canvasWidth, canvasHeight := 0, 0;
      currentZoomLevel := 1.0;
      maxZoomLevel := 3;
      currentMapYear := None;
      viewportX, viewportY := 0.0, 0.0;
      isDragging := false;
      lastPointerX, lastPointerY := 0.0, 0.0;
    }

    /** `drawMap` does anything only with a canvas and a truthy year. */
    predicate CanDraw()
      reads this
    {
      hasContext && currentMapYear.Some? && currentMapYear.value != 0
    }

    /** The load zoom of the current zoom. */
    function Level(): int
      reads this
    {
      LoadZoom(currentZoomLevel, maxZoomLevel)
    }

    /** `TILE_SIZE * Math.pow(2, displayZoom - clampedEffectiveLoadZoom)`. */
    function TileSide(): real
      reads this
    {
      TILE_SIZE * exp2(currentZoomLevel - Level() as real)
    }

    /** The tiles `drawMap` visits, in its order. */
    function VisibleTiles(): seq<(int, int)>
      reads this
      requires TileSide() > 0.0
    {
      var xs := TileSpan(viewportX, canvasWidth as real, TileSide());
      var ys := TileSpan(viewportY, canvasHeight as real, TileSide());
      Grid(ys.0, ys.1, xs.0, xs.1)
    }

    /** The cache key of one layer of one tile at the current year and level. */
    function KeyOf(t: (int, int), layer: string): TileKey
      reads this
      requires currentMapYear.Some?
    {
      TileKey(currentMapYear.value, Level(), t.0, t.1, layer)
    }

    /**
     * `drawMap`: without a canvas or a year it does nothing. Otherwise, for
     * every tile of the visible range in row-major order, it asks the cache
     * for the back image and then for the front image, to be drawn at the
     * tile's place once they load; afterwards every one of those keys has a
     * cache entry.
     */
    method DrawMap() returns (draws: seq<PendingDraw>)
      requires Valid()
      modifies tileCache
      ensures Valid()
      ensures !CanDraw() ==> draws == [] && unchanged(tileCache)
      ensures CanDraw() ==>
        && DrawnInOrder(draws, VisibleTiles(), viewportX, viewportY, TileSide())
        && Requested(tileCache.entries, currentMapYear.value, Level(), VisibleTiles())
        && Served(draws, tileCache.entries, currentMapYear.value, Level(), VisibleTiles())
      ensures Grows(old(tileCache.entries), old(tileCache.promises), tileCache.entries, tileCache.promises)
    {
      draws := [];
      if !CanDraw() {
        return;
      }
      var year := currentMapYear.value;
      var level := LoadZoom(currentZoomLevel, maxZoomLevel);
      var size := TILE_SIZE * exp2(currentZoomLevel - level as real);
      var xs := TileSpan(viewportX, canvasWidth as real, size);
      var ys := TileSpan(viewportY, canvasHeight as real, size);
      draws := DrawRows(year, level, xs, ys, size);
      assert level == Level() && size == TileSide();
    }

    /** The outer loop of `drawMap`: the rows of the range, top to bottom. */
    method DrawRows(year: int, level: int, xs: (int, int), ys: (int, int), size: real)
      returns (draws: seq<PendingDraw>)
      requires tileCache.Valid() && 1 <= level <= 6
      modifies tileCache
      ensures tileCache.Valid()
      ensures Grows(old(tileCache.entries), old(tileCache.promises), tileCache.entries, tileCache.promises)
      ensures DrawnInOrder(draws, Grid(ys.0, ys.1, xs.0, xs.1), viewportX, viewportY, size)
      ensures Served(draws, tileCache.entries, year, level, Grid(ys.0, ys.1, xs.0, xs.1))
    {
      draws := [];
      ghost var done: seq<(int, int)> := [];
      var tileY := ys.0;
      while tileY < ys.1
        invariant ys.0 <= tileY <= if ys.0 <= ys.1 then ys.1 else ys.0
        invariant done == Grid(ys.0, tileY, xs.0, xs.1)
        invariant DrawnInOrder(draws, done, viewportX, viewportY, size)
        invariant Served(draws, tileCache.entries, year, level, done)
        invariant tileCache.Valid()
        invariant Grows(old(tileCache.entries), old(tileCache.promises), tileCache.entries, tileCache.promises)
      {
        ghost var entries, promises := tileCache.entries, tileCache.promises;
        draws, done := DrawRow(year, level, tileY, xs, size, draws, done);
        GrowsTransitive(old(tileCache.entries), old(tileCache.promises), entries, promises,
                        tileCache.entries, tileCache.promises);
        assert Grid(ys.0, tileY + 1, xs.0, xs.1) == Grid(ys.0, tileY, xs.0, xs.1) + Row(tileY, xs.0, xs.1);
        tileY := tileY + 1;
      }
      assert done == Grid(ys.0, ys.1, xs.0, xs.1);
    }

    /** The inner loop of `drawMap`: the tiles of row `tileY`, left to right. */
    method DrawRow(year: int, level: int, tileY: int, xs: (int, int), size: real,
                   draws0: seq<PendingDraw>, ghost done0: seq<(int, int)>)
      returns (draws: seq<PendingDraw>, ghost done: seq<(int, int)>)
      requires tileCache.Valid() && 1 <= level <= 6
      requires DrawnInOrder(draws0, done0, viewportX, viewportY, size)
      requires Served(draws0, tileCache.entries, year, level, done0)
      modifies tileCache
      ensures tileCache.Valid()
      ensures Grows(old(tileCache.entries), old(tileCache.promises), tileCache.entries, tileCache.promises)
      ensures done == done0 + Row(tileY, xs.0, xs.1)
      ensures DrawnInOrder(draws, done, viewportX, viewportY, size)
      ensures Served(draws, tileCache.entries, year, level, done)
    {
      draws, done := draws0, done0;
      var tileX := xs.0;
      while tileX < xs.1
        invariant xs.0 <= tileX <= if xs.0 <= xs.1 then xs.1 else xs.0
        invariant done == done0 + Row(tileY, xs.0, tileX)
        invariant DrawnInOrder(draws, done, viewportX, viewportY, size)
        invariant Served(draws, tileCache.entries, year, level, done)
        invariant tileCache.Valid()
        invariant Grows(old(tileCache.entries), old(tileCache.promises), tileCache.entries, tileCache.promises)
      {
        ghost var entries, promises := tileCache.entries, tileCache.promises;
        draws := DrawTile(year, level, (tileY, tileX), size, draws, done);
        GrowsTransitive(old(tileCache.entries), old(tileCache.promises), entries, promises,
                        tileCache.entries, tileCache.promises);
        assert Row(tileY, xs.0, tileX + 1) == Row(tileY, xs.0, tileX) + [(tileY, tileX)];
        done := done + [(tileY, tileX)];
        tileX := tileX + 1;
      }
    }

    /**
     * The body of the loops of `drawMap`: request the back, then the front
     * image of tile `t`, and add both draws after those of the tiles before it.
     */
    method DrawTile(year: int, level: int, t: (int, int), size: real,
                    draws0: seq<PendingDraw>, ghost done0: seq<(int, int)>)
      returns (draws: seq<PendingDraw>)
      requires tileCache.Valid() && 1 <= level <= 6
      requires DrawnInOrder(draws0, done0, viewportX, viewportY, size)
      requires Served(draws0, tileCache.entries, year, level, done0)
      modifies tileCache
      ensures tileCache.Valid()
      ensures Grows(old(tileCache.entries), old(tileCache.promises), tileCache.entries, tileCache.promises)
      ensures DrawnInOrder(draws, done0 + [t], viewportX, viewportY, size)
      ensures Served(draws, tileCache.entries, year, level, done0 + [t])
    {
      var at := Place(t, viewportX, viewportY, size);
      var back := tileCache.GetTileImage(level, t.0, t.1, "back", year);
      var front := tileCache.GetTileImage(level, t.0, t.1, "front", year);
      draws := draws0 + [PendingDraw("back", t, at, back), PendingDraw("front", t, at, front)];
      DrawnExtend(draws0, done0, viewportX, viewportY, size, t, back, front);
      ServedExtend(draws0, old(tileCache.entries), old(tileCache.promises), tileCache.entries, tileCache.promises,
                   year, level, done0, t, at, back, front);
    }

    /**
     * What a finished `drawMap` leaves behind: when it can draw, both layers
     * of every visible tile, at the shown year and load zoom, have a cache entry.
     */
    ghost predicate ShowsView()
      reads this, tileCache
      requires Valid()
    {
      CanDraw() ==> Requested(tileCache.entries, currentMapYear.value, Level(), VisibleTiles())
    }

    /**
     * A handler's closing call to `drawMap`, seen from the handler: the cache
     * only gains entries, and it is untouched when nothing can be drawn; the
     * visible tiles are then requested; the viewer's own state is untouched.
     */
    method Redraw()
      requires Valid()
      modifies tileCache
      ensures Valid()
      ensures Grows(old(tileCache.entries), old(tileCache.promises), tileCache.entries, tileCache.promises)
      ensures !CanDraw() ==> unchanged(tileCache)
      ensures ShowsView()
    {
      var _ := DrawMap();
    }

    /** The window's `resize` listener: fit the canvas to its container, re-centre and redraw. */
    method Resize(width: nat, height: nat)
      requires Valid()
      modifies this, tileCache
      ensures Valid()
      ensures canvasWidth == width && canvasHeight == height
      ensures viewportX == width as real / 2.0 - TILE_SIZE * Pow2Int(0)
      ensures viewportY == height as real / 2.0 - TILE_SIZE * Pow2Int(0)
      ensures currentZoomLevel == old(currentZoomLevel) && maxZoomLevel == old(maxZoomLevel)
      ensures currentMapYear == old(currentMapYear) && hasContext == old(hasContext)
      ensures isMapInitialized == old(isMapInitialized) && isDragging == old(isDragging)
      ensures lastPointerX == old(lastPointerX) && lastPointerY == old(lastPointerY)
      ensures Grows(old(tileCache.entries), old(tileCache.promises), tileCache.entries, tileCache.promises)
      ensures ShowsView() && (!CanDraw() ==> unchanged(tileCache))
    {
      canvasWidth, canvasHeight := width, height;
      viewportX := width as real / 2.0 - TILE_SIZE * Pow2Int(0);
      viewportY := height as real / 2.0 - TILE_SIZE * Pow2Int(0);
      Redraw();
    }

    /**
     * `initializeMap`: once only, and only when the canvas exists; size it,
     * centre the viewport and redraw, then apply the checkbox's maximum zoom
     * (which redraws again) if the checkbox is present.
     */
    method InitializeMap(page: Page)
      requires Valid()
      modifies this, tileCache
      ensures Valid()
      ensures old(isMapInitialized) || page.canvas.None? ==>
        unchanged(this) && unchanged(tileCache)
      ensures !old(isMapInitialized) && page.canvas.Some? ==>
        && isMapInitialized && hasContext
        && canvasWidth == page.canvas.value.0 && canvasHeight == page.canvas.value.1
        && viewportX == page.canvas.value.0 as real / 2.0 - TILE_SIZE
        && viewportY == page.canvas.value.1 as real / 2.0 - TILE_SIZE
        && maxZoomLevel == (match page.zoomCheckbox
                              case Some(checked) => MaxZoomOf(checked)
                              case None => old(maxZoomLevel))
        && currentZoomLevel == (match page.zoomCheckbox
                                  case Some(checked) => ConstrainZoom(old(currentZoomLevel), MaxZoomOf(checked))
                                  case None => old(currentZoomLevel))
        && ShowsView()
      ensures currentMapYear == old(currentMapYear) && isDragging == old(isDragging)
      ensures lastPointerX == old(lastPointerX) && lastPointerY == old(lastPointerY)
      ensures Grows(old(tileCache.entries), old(tileCache.promises), tileCache.entries, tileCache.promises)
    {
      if isMapInitialized {
        return;
      }
      if page.canvas.None? {
        return;
      }
      AttachCanvas(page.canvas.value.0, page.canvas.value.1, page.zoomCheckbox);
    }

    /**
     * `initializeMap` once the canvas is found: size and centre it and
     * redraw, apply the checkbox's maximum zoom if there is a checkbox, and
     * mark the map initialised.
     */
    method AttachCanvas(width: nat, height: nat, zoomCheckbox: Option<bool>)
      requires Valid()
      modifies this, tileCache
      ensures Valid()
      ensures isMapInitialized && hasContext
      ensures canvasWidth == width && canvasHeight == height
      ensures viewportX == width as real / 2.0 - TILE_SIZE && viewportY == height as real / 2.0 - TILE_SIZE
      ensures maxZoomLevel == (match zoomCheckbox
                                 case Some(checked) => MaxZoomOf(checked)
                                 case None => old(maxZoomLevel))
      ensures currentZoomLevel == (match zoomCheckbox
                                     case Some(checked) => ConstrainZoom(old(currentZoomLevel), MaxZoomOf(checked))
                                     case None => old(currentZoomLevel))
      ensures ShowsView()
      ensures currentMapYear == old(currentMapYear) && isDragging == old(isDragging)
      ensures lastPointerX == old(lastPointerX) && lastPointerY == old(lastPointerY)
      ensures Grows(old(tileCache.entries), old(tileCache.promises), tileCache.entries, tileCache.promises)
    {
      // Nothing below reads the flag, so it is raised together with the context.
      hasContext, isMapInitialized := true, true;
      ghost var entries0, promises0 := tileCache.entries, tileCache.promises;
      Resize(width, height);
      if zoomCheckbox.Some? {
        ghost var entries1, promises1 := tileCache.entries, tileCache.promises;
        SetZoomLevelConstraint(zoomCheckbox.value);
        GrowsTransitive(entries0, promises0, entries1, promises1, tileCache.entries, tileCache.promises);
      }
    }

    /**
     * `window.loadMapForYear`: initialise if needed, show `year` and redraw,
     * so that the visible tiles of that year are requested.
     */
    method LoadMapForYear(year: int, page: Page)
      requires Valid()
      modifies this, tileCache
      ensures Valid()
      ensures currentMapYear == Some(year)
      ensures ShowsView()
      ensures old(isMapInitialized) || page.canvas.None? ==>
        && isMapInitialized == old(isMapInitialized) && hasContext == old(hasContext)
        && viewportX == old(viewportX) && viewportY == old(viewportY)
        && currentZoomLevel == old(currentZoomLevel) && maxZoomLevel == old(maxZoomLevel)
        && canvasWidth == old(canvasWidth) && canvasHeight == old(canvasHeight)
        && (!CanDraw() ==> unchanged(tileCache))
      ensures !old(isMapInitialized) && page.canvas.Some? ==>
        && isMapInitialized && hasContext
        && canvasWidth == page.canvas.value.0 && canvasHeight == page.canvas.value.1
        && viewportX == page.canvas.value.0 as real / 2.0 - TILE_SIZE
        && viewportY == page.canvas.value.1 as real / 2.0 - TILE_SIZE
        && maxZoomLevel == (match page.zoomCheckbox
                              case Some(checked) => MaxZoomOf(checked)
                              case None => old(maxZoomLevel))
        && currentZoomLevel == (match page.zoomCheckbox
                                  case Some(checked) => ConstrainZoom(old(currentZoomLevel), MaxZoomOf(checked))
                                  case None => old(currentZoomLevel))
      ensures isDragging == old(isDragging)
      ensures lastPointerX == old(lastPointerX) && lastPointerY == old(lastPointerY)
      ensures Grows(old(tileCache.entries), old(tileCache.promises), tileCache.entries, tileCache.promises)
    {
      if !isMapInitialized {
        InitializeMap(page);
      }
      currentMapYear := Some(year);
      Redraw();
    }

    /** `window.getCurrentMapYear`: the displayed year, or `MAP_MIN_YEAR` when it is unset or 0. */
    method GetCurrentMapYear() returns (year: int)
      ensures currentMapYear.Some? && currentMapYear.value != 0 ==> year == currentMapYear.value
      ensures currentMapYear.None? || currentMapYear.value == 0 ==> year == minYear
    {
      year := if currentMapYear.Some? && currentMapYear.value != 0 then currentMapYear.value else minYear;
    }

    /** `onPointerDown`: start a drag at the pointer. */
    method OnPointerDown(clientX: real, clientY: real)
      modifies this
      ensures isDragging && lastPointerX == clientX && lastPointerY == clientY
      ensures viewportX == old(viewportX) && viewportY == old(viewportY)
      ensures currentZoomLevel == old(currentZoomLevel) && maxZoomLevel == old(maxZoomLevel)
      ensures currentMapYear == old(currentMapYear) && hasContext == old(hasContext)
      ensures isMapInitialized == old(isMapInitialized)
      ensures canvasWidth == old(canvasWidth) && canvasHeight == old(canvasHeight)
    {
      isDragging := true;
      lastPointerX, lastPointerY := clientX, clientY;
    }

    /** `onPointerUp` (also `mouseleave`): end the drag. */
    method OnPointerUp()
      modifies this
      ensures !isDragging
      ensures viewportX == old(viewportX) && viewportY == old(viewportY)
      ensures lastPointerX == old(lastPointerX) && lastPointerY == old(lastPointerY)
      ensures currentZoomLevel == old(currentZoomLevel) && maxZoomLevel == old(maxZoomLevel)
      ensures currentMapYear == old(currentMapYear) && hasContext == old(hasContext)
      ensures isMapInitialized == old(isMapInitialized)
      ensures canvasWidth == old(canvasWidth) && canvasHeight == old(canvasHeight)
    {
      isDragging := false;
    }

    /**
     * `onPointerMove`: while dragging, move the viewport by the pointer's
     * movement since the last event, remember the new position and redraw;
     * when not dragging, nothing happens.
     */
    method OnPointerMove(clientX: real, clientY: real)
      requires Valid()
      modifies this, tileCache
      ensures Valid()
      ensures !old(isDragging) ==> unchanged(this) && unchanged(tileCache)
      ensures old(isDragging) ==>
        && viewportX == old(viewportX) + (clientX - old(lastPointerX))
        && viewportY == old(viewportY) + (clientY - old(lastPointerY))
        && lastPointerX == clientX && lastPointerY == clientY
        && isDragging
        && ShowsView() && (!CanDraw() ==> unchanged(tileCache))
      ensures currentZoomLevel == old(currentZoomLevel) && maxZoomLevel == old(maxZoomLevel)
      ensures currentMapYear == old(currentMapYear) && hasContext == old(hasContext)
      ensures isMapInitialized == old(isMapInitialized)
      ensures canvasWidth == old(canvasWidth) && canvasHeight == old(canvasHeight)
      ensures Grows(old(tileCache.entries), old(tileCache.promises), tileCache.entries, tileCache.promises)
    {
      if isDragging {
        var dx := clientX - lastPointerX;
        var dy := clientY - lastPointerY;
        viewportX := viewportX + dx;
        viewportY := viewportY + dy;
        lastPointerX, lastPointerY := clientX, clientY;
        Redraw();
      }
    }

    /**
     * `onWheel`: one notch of `ZOOM_SPEED`, clamped to `[1, maxZoom + 0.99]`.
     * If the zoom moves, the viewport is re-anchored so that the map point
     * under the mouse (given relative to the canvas) stays under it;
     * otherwise nothing changes.
     */
    method OnWheel(deltaY: real, mouseX: real, mouseY: real)
      requires Valid()
      modifies this, tileCache
      ensures Valid()
      ensures currentZoomLevel == WheelZoom(old(currentZoomLevel), deltaY, maxZoomLevel)
      ensures currentZoomLevel == old(currentZoomLevel) ==> unchanged(this) && unchanged(tileCache)
      ensures currentZoomLevel != old(currentZoomLevel) ==>
        var oldLevel, newLevel := old(currentZoomLevel).Floor, currentZoomLevel.Floor;
        var ratio := Pow2Int(newLevel - oldLevel);
        var oldScale := exp2(old(currentZoomLevel) - oldLevel as real);
        var newScale := exp2(currentZoomLevel - newLevel as real);
        && KeepsPointUnder(mouseX, old(viewportX), viewportX, ratio, oldScale, newScale)
        && KeepsPointUnder(mouseY, old(viewportY), viewportY, ratio, oldScale, newScale)
        && ShowsView() && (!CanDraw() ==> unchanged(tileCache))
      ensures maxZoomLevel == old(maxZoomLevel) && currentMapYear == old(currentMapYear)
      ensures isDragging == old(isDragging) && hasContext == old(hasContext)
      ensures isMapInitialized == old(isMapInitialized)
      ensures lastPointerX == old(lastPointerX) && lastPointerY == old(lastPointerY)
      ensures canvasWidth == old(canvasWidth) && canvasHeight == old(canvasHeight)
      ensures Grows(old(tileCache.entries), old(tileCache.promises), tileCache.entries, tileCache.promises)
    {
      var oldZoom := currentZoomLevel;
      var newZoom := currentZoomLevel;
      if deltaY < 0.0 {
        newZoom := newZoom + ZOOM_SPEED;
      } else {
        newZoom := newZoom - ZOOM_SPEED;
      }
      newZoom := Min(Max(newZoom, 1.0), maxZoomLevel as real + 0.99);
      if oldZoom != newZoom {
        ZoomAbout(newZoom, mouseX, mouseY);
      }
    }

    /**
     * The zoom change of `onWheel`: re-anchor the viewport about the mouse
     * for the new zoom, take the new zoom and redraw.
     */
    method ZoomAbout(newZoom: real, mouseX: real, mouseY: real)
      requires Valid() && 1.0 <= newZoom <= maxZoomLevel as real + 0.99
      modifies this, tileCache
      ensures Valid()
      ensures currentZoomLevel == newZoom
      ensures var oldLevel, newLevel := old(currentZoomLevel).Floor, newZoom.Floor;
        var ratio := Pow2Int(newLevel - oldLevel);
        var oldScale := exp2(old(currentZoomLevel) - oldLevel as real);
        var newScale := exp2(newZoom - newLevel as real);
        && KeepsPointUnder(mouseX, old(viewportX), viewportX, ratio, oldScale, newScale)
        && KeepsPointUnder(mouseY, old(viewportY), viewportY, ratio, oldScale, newScale)
      ensures ShowsView() && (!CanDraw() ==> unchanged(tileCache))
      ensures maxZoomLevel == old(maxZoomLevel) && currentMapYear == old(currentMapYear)
      ensures isDragging == old(isDragging) && hasContext == old(hasContext)
      ensures isMapInitialized == old(isMapInitialized)
      ensures lastPointerX == old(lastPointerX) && lastPointerY == old(lastPointerY)
      ensures canvasWidth == old(canvasWidth) && canvasHeight == old(canvasHeight)
      ensures Grows(old(tileCache.entries), old(tileCache.promises), tileCache.entries, tileCache.promises)
    {
      var oldZoom := currentZoomLevel;
      var oldLevel := oldZoom.Floor;
      var newLevel := newZoom.Floor;
      var ratio := Pow2Int(newLevel - oldLevel);
      var oldScale := exp2(oldZoom - oldLevel as real);
      var newScale := exp2(newZoom - newLevel as real);
      var x, y := viewportX, viewportY;
      WheelAnchorKeepsPoint(mouseX, x, ratio, oldScale, newScale);
      WheelAnchorKeepsPoint(mouseY, y, ratio, oldScale, newScale);
      viewportX := WheelAnchor(mouseX, x, ratio, oldScale, newScale);
      viewportY := WheelAnchor(mouseY, y, ratio, oldScale, newScale);
      currentZoomLevel := newZoom;
      Redraw();
    }

    /**
     * `setZoomLevelConstraint`: the checkbox chooses a maximum zoom of 6 or
     * 3; a zoom above the new range drops to the maximum itself; then redraw.
     */
    method SetZoomLevelConstraint(isChecked: bool)
      requires Valid()
      modifies this, tileCache
      ensures Valid()
      ensures maxZoomLevel == MaxZoomOf(isChecked)
      ensures currentZoomLevel == ConstrainZoom(old(currentZoomLevel), maxZoomLevel)
      ensures viewportX == old(viewportX) && viewportY == old(viewportY)
      ensures currentMapYear == old(currentMapYear) && hasContext == old(hasContext)
      ensures isMapInitialized == old(isMapInitialized) && isDragging == old(isDragging)
      ensures lastPointerX == old(lastPointerX) && lastPointerY == old(lastPointerY)
      ensures canvasWidth == old(canvasWidth) && canvasHeight == old(canvasHeight)
      ensures Grows(old(tileCache.entries), old(tileCache.promises), tileCache.entries, tileCache.promises)
      ensures ShowsView() && (!CanDraw() ==> unchanged(tileCache))
    {
      maxZoomLevel := MaxZoomOf(isChecked);
      if currentZoomLevel > maxZoomLevel as real + 0.99 {
        currentZoomLevel := maxZoomLevel as real;
      }
      Redraw();
    }
  }
}
