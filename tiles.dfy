/**
 * Tile addressing of the canvas viewer (`generateTileUrl` in map.js): a tile
 * is named by its zoom level, row and column, and the locator is either a
 * path in the local tile pyramid (zoom 1 to 3) or a CDN address (zoom 4 to
 * 6). The back layer does not depend on the year; the front layer carries
 * the year, zero-padded to four digits only in the local scheme.
 */
module Tiles {
  import opened Decimal

  const LOCAL_ROOT := "./img/"
  const LOCAL_BACK := LOCAL_ROOT + "back/"
  const CDN_ROOT := "https://geacron.b-cdn.net/"
  const CDN_BACK := CDN_ROOT + "plain_"
  const CDN_FRONT := CDN_ROOT + "tiles/area_"

  /** The file name `Z{zoom}_{a}_{b}.png` every tile locator ends with. */
  function TileName(zoom: int, a: int, b: int): string
  {
    "Z" + (IntToString(zoom) + ("_" + (IntToString(a) + ("_" + (IntToString(b) + ".png")))))
  }

  predicate LocalZoom(zoom: int) { 1 <= zoom <= 3 }

  predicate RemoteZoom(zoom: int) { 4 <= zoom <= 6 }

  predicate KnownLayer(layer: string) { layer == "back" || layer == "front" }

  /**
   * `generateTileUrl(year, actualZoom, tileY, tileX, layer)`. The empty
   * string is the source's "invalid" answer; it is given exactly when the
   * zoom is outside 1..6 or the layer is neither 'back' nor 'front'.
   */
  function TileUrl(year: int, zoom: int, tileY: int, tileX: int, layer: string): (url: string)
    ensures url == "" <==> !((LocalZoom(zoom) || RemoteZoom(zoom)) && KnownLayer(layer))
  {
    var formattedYear := if LocalZoom(zoom) then Pad4(IntToString(year)) else IntToString(year);
    if LocalZoom(zoom) then
      if layer == "back" then LOCAL_BACK + TileName(zoom, tileY, tileX)
      else if layer == "front" then LOCAL_ROOT + (formattedYear + ("/" + TileName(zoom, tileY, tileX)))
      else ""
    else if RemoteZoom(zoom) then
      if layer == "back" then CDN_BACK + TileName(zoom, tileY, tileX)
      else if layer == "front" then CDN_FRONT + (formattedYear + ("_" + TileName(zoom, tileY, tileX)))
      else ""
    else ""
  }

  /** The back layer is the same picture for every year. */
  lemma BackUrlIgnoresYear(year1: int, year2: int, zoom: int, tileY: int, tileX: int)
    ensures TileUrl(year1, zoom, tileY, tileX, "back") == TileUrl(year2, zoom, tileY, tileX, "back")
  {
  }

  /** `s.startsWith(p)`. */
  predicate StartsWith(p: string, s: string)
  {
    |p| <= |s| && s[..|p|] == p
  }

  lemma Prefix(p: string, s: string)
    ensures StartsWith(p, p + s)
  {
  }

  /** Concatenation regroups. */
  lemma Regroup<T>(a: seq<T>, b: seq<T>, c: seq<T>)
    ensures (a + b) + c == a + (b + c)
  {
  }

  /** A local path starts with '.', a CDN address with 'h'. */
  lemma RootFirst(s: string)
    ensures StartsWith(LOCAL_ROOT, s) ==> s[0] == '.'
    ensures StartsWith(CDN_ROOT, s) ==> s[0] == 'h'
  {
    if StartsWith(LOCAL_ROOT, s) {
      assert s[0] == s[..|LOCAL_ROOT|][0];
    }
    if StartsWith(CDN_ROOT, s) {
      assert s[0] == s[..|CDN_ROOT|][0];
    }
  }

  /**
   * The zoom band picks the scheme: local paths for zoom 1..3, the CDN for
   * zoom 4..6; in the local front path the year field is at least four
   * characters wide, in the CDN front address it is the plain rendering.
   */
  lemma TileUrlScheme(year: int, zoom: int, tileY: int, tileX: int, layer: string)
    requires KnownLayer(layer)
    ensures var url := TileUrl(year, zoom, tileY, tileX, layer);
      && (LocalZoom(zoom) ==> StartsWith(LOCAL_ROOT, url))
      && (RemoteZoom(zoom) ==> StartsWith(CDN_ROOT, url))
      && (LocalZoom(zoom) && layer == "front" ==>
            var field := Pad4(IntToString(year));
            |field| >= 4 && url == LOCAL_ROOT + (field + ("/" + TileName(zoom, tileY, tileX))))
      && (RemoteZoom(zoom) && layer == "front" ==>
            url == CDN_FRONT + (IntToString(year) + ("_" + TileName(zoom, tileY, tileX))))
  {
    if LocalZoom(zoom) {
      LocalScheme(year, zoom, tileY, tileX, layer);
    } else if RemoteZoom(zoom) {
      RemoteScheme(year, zoom, tileY, tileX, layer);
    }
  }

  /** The local paths, zoom 1..3. */
  lemma LocalScheme(year: int, zoom: int, tileY: int, tileX: int, layer: string)
    requires KnownLayer(layer) && LocalZoom(zoom)
    ensures StartsWith(LOCAL_ROOT, TileUrl(year, zoom, tileY, tileX, layer))
  {
    var name := TileName(zoom, tileY, tileX);
    var rest := if layer == "back" then "back/" + name else Pad4(IntToString(year)) + ("/" + name);
    assert TileUrl(year, zoom, tileY, tileX, layer) == LOCAL_ROOT + rest by {
      if layer == "back" {
        Regroup(LOCAL_ROOT, "back/", name);
      }
    }
    Prefix(LOCAL_ROOT, rest);
  }

  /** The CDN addresses, zoom 4..6. */
  lemma RemoteScheme(year: int, zoom: int, tileY: int, tileX: int, layer: string)
    requires KnownLayer(layer) && RemoteZoom(zoom)
    ensures StartsWith(CDN_ROOT, TileUrl(year, zoom, tileY, tileX, layer))
  {
    var name := TileName(zoom, tileY, tileX);
    var rest := if layer == "back" then "plain_" + name else "tiles/area_" + (IntToString(year) + ("_" + name));
    assert TileUrl(year, zoom, tileY, tileX, layer) == CDN_ROOT + rest by {
      if layer == "back" {
        Regroup(CDN_ROOT, "plain_", name);
      } else {
        Regroup(CDN_ROOT, "tiles/area_", IntToString(year) + ("_" + name));
      }
    }
    Prefix(CDN_ROOT, rest);
  }

  /** Removing a common prefix. */
  lemma DropPrefix(p: string, s1: string, s2: string)
    requires p + s1 == p + s2
    ensures s1 == s2
  {
    assert s1 == (p + s1)[|p|..];
    assert s2 == (p + s2)[|p|..];
  }

  /** Removing a common suffix. */
  lemma DropSuffix(s1: string, s2: string, q: string)
    requires s1 + q == s2 + q
    ensures s1 == s2
  {
    assert s1 == (s1 + q)[..|s1|];
    assert s2 == (s2 + q)[..|s2|];
  }

  /** A tile file name names exactly one tile. */
  lemma TileNameInjective(z1: int, a1: int, b1: int, z2: int, a2: int, b2: int)
    requires TileName(z1, a1, b1) == TileName(z2, a2, b2)
    ensures z1 == z2 && a1 == a2 && b1 == b2
  {
    var tail1 := IntToString(b1) + ".png";
    var tail2 := IntToString(b2) + ".png";
    var rest1 := IntToString(a1) + ("_" + tail1);
    var rest2 := IntToString(a2) + ("_" + tail2);
    DropPrefix("Z", IntToString(z1) + ("_" + rest1), IntToString(z2) + ("_" + rest2));
    IntFieldSplit(z1, rest1, z2, rest2, '_');
    IntFieldSplit(a1, tail1, a2, tail2, '_');
    DropSuffix(IntToString(b1), IntToString(b2), ".png");
    IntToStringInjective(b1, b2);
  }

  /** Equal valid locators on one layer come from the same zoom band. */
  lemma SameBand(year1: int, zoom1: int, tileY1: int, tileX1: int,
                 year2: int, zoom2: int, tileY2: int, tileX2: int, layer: string)
    requires TileUrl(year1, zoom1, tileY1, tileX1, layer) == TileUrl(year2, zoom2, tileY2, tileX2, layer)
    requires TileUrl(year1, zoom1, tileY1, tileX1, layer) != ""
    ensures LocalZoom(zoom1) <==> LocalZoom(zoom2)
  {
    var url := TileUrl(year1, zoom1, tileY1, tileX1, layer);
    if LocalZoom(zoom1) {
      LocalScheme(year1, zoom1, tileY1, tileX1, layer);
    } else {
      RemoteScheme(year1, zoom1, tileY1, tileX1, layer);
    }
    if LocalZoom(zoom2) {
      LocalScheme(year2, zoom2, tileY2, tileX2, layer);
    } else {
      RemoteScheme(year2, zoom2, tileY2, tileX2, layer);
    }
    RootFirst(url);
  }

  /**
   * A valid locator identifies the tile it was made for: two requests on
   * the same layer that get the same non-empty locator ask for the same
   * zoom, row and column, and on the front layer for the same year.
   */
  lemma TileUrlInjective(year1: int, zoom1: int, tileY1: int, tileX1: int,
                         year2: int, zoom2: int, tileY2: int, tileX2: int, layer: string)
    requires TileUrl(year1, zoom1, tileY1, tileX1, layer) == TileUrl(year2, zoom2, tileY2, tileX2, layer)
    requires TileUrl(year1, zoom1, tileY1, tileX1, layer) != ""
    ensures zoom1 == zoom2 && tileY1 == tileY2 && tileX1 == tileX2
    ensures layer == "front" ==> year1 == year2
  {
    var url := TileUrl(year1, zoom1, tileY1, tileX1, layer);
    var n1, n2 := TileName(zoom1, tileY1, tileX1), TileName(zoom2, tileY2, tileX2);
    SameBand(year1, zoom1, tileY1, tileX1, year2, zoom2, tileY2, tileX2, layer);
    if LocalZoom(zoom1) && layer == "back" {
      DropPrefix(LOCAL_BACK, n1, n2);
    } else if LocalZoom(zoom1) {
      var f1, f2 := Pad4(IntToString(year1)), Pad4(IntToString(year2));
      DropPrefix(LOCAL_ROOT, f1 + ("/" + n1), f2 + ("/" + n2));
      PaddedAvoids(year1, '/');
      PaddedAvoids(year2, '/');
      SplitAtFirst(f1, n1, f2, n2, '/');
      PaddedIntInjective(year1, year2, 4);
    } else if layer == "back" {
      DropPrefix(CDN_BACK, n1, n2);
    } else {
      var f1, f2 := IntToString(year1), IntToString(year2);
      DropPrefix(CDN_FRONT, f1 + ("_" + n1), f2 + ("_" + n2));
      IntFieldSplit(year1, n1, year2, n2, '_');
    }
    TileNameInjective(zoom1, tileY1, tileX1, zoom2, tileY2, tileX2);
  }
}
