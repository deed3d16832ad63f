/**
 * The manifest builder of tool/summarize.py
 * (`find_png_files_and_save_locations`): it enumerates the tile file names
 * of zoom levels 1 to 3 and, for each, lists in ascending order the year
 * folders `0001` ... that contain a file of that name. The directory tree
 * is a map from a folder name to the set of file names in it; a folder
 * exists when it is a key.
 */
module Manifest {
  import opened Decimal
  import opened Tiles

  /** The number of year folders the script searches when run as a program. */
  const NUM_IMG_FOLDERS := 2022

  /** A tile: zoom level and the two coordinates of its file name. */
  datatype Tile = Tile(z: int, x: int, y: int)

  function Pow2(z: nat): nat
  {
    if z == 0 then 1 else 2 * Pow2(z - 1)
  }

  /** The tiles `(z, x, y)` with `0 <= y < n`, `y` ascending. */
  function Column(z: int, x: int, n: int): seq<Tile>
    decreases n
  {
    if n <= 0 then [] else Column(z, x, n - 1) + [Tile(z, x, n - 1)]
  }

  /** The tiles `(z, x, y)` with `0 <= x < nx` and `0 <= y < side`, in the order of the two inner loops. */
  function Square(z: int, nx: int, side: int): seq<Tile>
    decreases nx
  {
    if nx <= 0 then [] else Square(z, nx - 1, side) + Column(z, nx - 1, side)
  }

  /** The tiles of zoom levels `1 <= z <= nz`, each level a full square of side `2^z`. */
  function Levels(nz: nat): seq<Tile>
  {
    if nz == 0 then [] else Levels(nz - 1) + Square(nz, Pow2(nz), Pow2(nz))
  }

  /** The file name of each tile. */
  function Names(tiles: seq<Tile>): (names: seq<string>)
    ensures |names| == |tiles|
  {
    seq(|tiles|, i requires 0 <= i < |tiles| => TileName(tiles[i].z, tiles[i].x, tiles[i].y))
  }

  /** The highest zoom level with local tiles: `range(1, 4)`. */
  const TOP_ZOOM: nat := 3

  /** The target names, in the order the script lists them. */
  function Targets(): seq<string>
  {
    Names(Levels(TOP_ZOOM))
  }

  /** Strict lexicographic order of tiles: the order in which the loops produce them. */
  predicate Before(a: Tile, b: Tile)
  {
    a.z < b.z || (a.z == b.z && (a.x < b.x || (a.x == b.x && a.y < b.y)))
  }

  /** Every tile of a sequence comes strictly before every later one. */
  predicate Increasing(tiles: seq<Tile>)
  {
    forall i, j :: 0 <= i < j < |tiles| ==> Before(tiles[i], tiles[j])
  }

  /** Every tile of `a` comes before every tile of `b`. */
  predicate AllBefore(a: seq<Tile>, b: seq<Tile>)
  {
    forall s: Tile, t: Tile :: s in a && t in b ==> Before(s, t)
  }

  /** Two increasing runs, all of the first before all of the second, make an increasing run. */
  lemma ConcatIncreasing(a: seq<Tile>, b: seq<Tile>)
    requires Increasing(a) && Increasing(b)
    requires AllBefore(a, b)
    ensures Increasing(a + b)
  {
    var ab := a + b;
    forall i, j | 0 <= i < j < |ab| ensures Before(ab[i], ab[j]) {
      if j < |a| {
        assert ab[i] == a[i] && ab[j] == a[j];
      } else if i < |a| {
        assert ab[i] == a[i] && ab[j] == b[j - |a|];
        assert a[i] in a && b[j - |a|] in b;
      } else {
        assert ab[i] == b[i - |a|] && ab[j] == b[j - |a|];
      }
    }
  }

  lemma {:induction false} ColumnMembers(z: int, x: int, n: int)
    ensures forall t: Tile :: t in Column(z, x, n) <==> t.z == z && t.x == x && 0 <= t.y < n
    decreases n
  {
    if n > 0 {
      ColumnMembers(z, x, n - 1);
    }
  }

  lemma {:induction false} ColumnIncreasing(z: int, x: int, n: int)
    ensures Increasing(Column(z, x, n))
    decreases n
  {
    if n > 0 {
      ColumnIncreasing(z, x, n - 1);
      assert AllBefore(Column(z, x, n - 1), [Tile(z, x, n - 1)]) by {
        ColumnMembers(z, x, n - 1);
      }
      ConcatIncreasing(Column(z, x, n - 1), [Tile(z, x, n - 1)]);
    }
  }

  lemma {:induction false} SquareMembers(z: int, nx: int, side: int)
    ensures forall t: Tile :: t in Square(z, nx, side) <==> t.z == z && 0 <= t.x < nx && 0 <= t.y < side
    decreases nx
  {
    if nx > 0 {
      SquareMembers(z, nx - 1, side);
      ColumnMembers(z, nx - 1, side);
    }
  }

  lemma {:induction false} SquareIncreasing(z: int, nx: int, side: int)
    ensures Increasing(Square(z, nx, side))
    decreases nx
  {
    if nx > 0 {
      SquareIncreasing(z, nx - 1, side);
      ColumnIncreasing(z, nx - 1, side);
      assert AllBefore(Square(z, nx - 1, side), Column(z, nx - 1, side)) by {
        SquareMembers(z, nx - 1, side);
        ColumnMembers(z, nx - 1, side);
      }
      ConcatIncreasing(Square(z, nx - 1, side), Column(z, nx - 1, side));
    }
  }

  lemma {:induction false} SquareSize(z: int, nx: nat, side: nat)
    ensures |Square(z, nx, side)| == nx * side
  {
    if nx > 0 {
      SquareSize(z, nx - 1, side);
      ColumnSize(z, nx - 1, side);
      assert (nx - 1) * side + side == nx * side;
    }
  }

  lemma {:induction false} ColumnSize(z: int, x: int, n: nat)
    ensures |Column(z, x, n)| == n
  {
    if n > 0 {
      ColumnSize(z, x, n - 1);
    }
  }

  /**
   * The levels up to `nz` hold exactly the tiles `(z, x, y)` with
   * `1 <= z <= nz` and `0 <= x, y < 2^z`.
   */
  lemma {:induction false} LevelsMembers(nz: nat)
    ensures forall t: Tile :: t in Levels(nz) <==> 1 <= t.z <= nz && 0 <= t.x < Pow2(t.z) && 0 <= t.y < Pow2(t.z)
  {
    if nz > 0 {
      LevelsMembers(nz - 1);
      SquareMembers(nz, Pow2(nz), Pow2(nz));
    }
  }

  /** The levels up to `nz` hold tiles of zoom `1..nz` only. */
  lemma {:induction false} LevelsZoom(nz: nat)
    ensures forall t: Tile :: t in Levels(nz) ==> 1 <= t.z <= nz
  {
    if nz > 0 {
      LevelsZoom(nz - 1);
      var side := Pow2(nz);
      forall t: Tile | t in Square(nz, side, side) ensures t.z == nz {
        SquareMembers(nz, side, side);
      }
    }
  }

  /** The levels list each tile once, in the loops' order. */
  lemma {:induction false} LevelsIncreasing(nz: nat)
    ensures Increasing(Levels(nz))
  {
    if nz > 0 {
      var side := Pow2(nz);
      var lower, top := Levels(nz - 1), Square(nz, side, side);
      assert Levels(nz) == lower + top;
      assert AllBefore(lower, top) by {
        forall s: Tile, t: Tile | s in lower && t in top ensures Before(s, t) {
          LevelsZoom(nz - 1);
          SquareMembers(nz, side, side);
        }
      }
      LevelsIncreasing(nz - 1);
      SquareIncreasing(nz, side, side);
      ConcatIncreasing(lower, top);
    }
  }

  /** The number of tiles of zoom levels `1..nz`: the sum of `2^z * 2^z`. */
  function TileCount(nz: nat): nat
  {
    if nz == 0 then 0 else TileCount(nz - 1) + Pow2(nz) * Pow2(nz)
  }

  lemma {:induction false} LevelsSize(nz: nat)
    ensures |Levels(nz)| == TileCount(nz)
  {
    if nz > 0 {
      LevelsSize(nz - 1);
      SquareSize(nz, Pow2(nz), Pow2(nz));
    }
  }

  /** There are 4 + 16 + 64 = 84 target names. */
  lemma TargetCount()
    ensures |Targets()| == 84
  {
    assert TileCount(TOP_ZOOM) == 84;
    LevelsSize(TOP_ZOOM);
  }

  /** The `i`-th name is the name of the `i`-th tile. */
  lemma NamesAt(tiles: seq<Tile>, i: int)
    requires 0 <= i < |tiles|
    ensures Names(tiles)[i] == TileName(tiles[i].z, tiles[i].x, tiles[i].y)
  {
  }

  /** Every tile of levels `1..nz` is named. */
  lemma LevelNamesComplete(nz: nat)
    ensures forall t: Tile :: 1 <= t.z <= nz && 0 <= t.x < Pow2(t.z) && 0 <= t.y < Pow2(t.z) ==>
      TileName(t.z, t.x, t.y) in Names(Levels(nz))
  {
    var ts := Levels(nz);
    LevelsMembers(nz);
    forall t: Tile | 1 <= t.z <= nz && 0 <= t.x < Pow2(t.z) && 0 <= t.y < Pow2(t.z)
      ensures TileName(t.z, t.x, t.y) in Names(ts)
    {
      assert t in ts;
      var k :| 0 <= k < |ts| && ts[k] == t;
      NamesAt(ts, k);
    }
  }

  /** `name` is the file name of a tile of zoom levels `1..nz`. */
  ghost predicate NamesLevelTile(name: string, nz: nat)
  {
    exists t: Tile :: 1 <= t.z <= nz && 0 <= t.x < Pow2(t.z) && 0 <= t.y < Pow2(t.z) && name == TileName(t.z, t.x, t.y)
  }

  /** Every name of levels `1..nz` is the name of a tile of those levels. */
  lemma LevelNamesSound(nz: nat)
    ensures forall i :: 0 <= i < |Names(Levels(nz))| ==> NamesLevelTile(Names(Levels(nz))[i], nz)
  {
    var ts := Levels(nz);
    LevelsMembers(nz);
    forall i | 0 <= i < |Names(ts)| ensures NamesLevelTile(Names(ts)[i], nz) {
      var t := ts[i];
      assert t in ts;
      NamesAt(ts, i);
      assert 1 <= t.z <= nz && 0 <= t.x < Pow2(t.z) && 0 <= t.y < Pow2(t.z) && Names(ts)[i] == TileName(t.z, t.x, t.y);
    }
  }

  /** No name of levels `1..nz` is listed twice. */
  lemma LevelNamesDistinct(nz: nat)
    ensures forall i, j :: 0 <= i < j < |Names(Levels(nz))| ==> Names(Levels(nz))[i] != Names(Levels(nz))[j]
  {
    var ts := Levels(nz);
    var names := Names(ts);
    LevelsIncreasing(nz);
    forall i, j | 0 <= i < j < |names| ensures names[i] != names[j] {
      assert Before(ts[i], ts[j]);
      NamesAt(ts, i);
      NamesAt(ts, j);
      if names[i] == names[j] {
        TileNameInjective(ts[i].z, ts[i].x, ts[i].y, ts[j].z, ts[j].x, ts[j].y);
      }
    }
  }

  lemma NamesAppend(tiles: seq<Tile>, t: Tile)
    ensures Names(tiles + [t]) == Names(tiles) + [TileName(t.z, t.x, t.y)]
  {
    var l, r := Names(tiles + [t]), Names(tiles) + [TileName(t.z, t.x, t.y)];
    forall i | 0 <= i < |l| ensures l[i] == r[i] {
      if i < |tiles| {
        assert (tiles + [t])[i] == tiles[i];
      }
    }
  }

  /** The nested loops of the script that list the target names. */
  method TargetNames() returns (names: seq<string>)
    ensures names == Targets()
  {
    names := ListLevels(TOP_ZOOM);
  }

  /** The outer loop, over zoom levels `1..top`. */
  method ListLevels(top: nat) returns (names: seq<string>)
    ensures names == Names(Levels(top))
  {
    names := [];
    var z := 1;
    while z < top + 1
      invariant 1 <= z <= top + 1
      invariant names == Names(Levels(z - 1))
    {
      var maxXY := Pow2(z);
      names := ListSquare(names, Levels(z - 1), z, maxXY);
      z := z + 1;
    }
  }

  /** The two inner loops: the names of level `z`, a square of side `side`, appended. */
  method ListSquare(names0: seq<string>, ghost tiles0: seq<Tile>, z: int, side: nat) returns (names: seq<string>)
    requires names0 == Names(tiles0)
    ensures names == Names(tiles0 + Square(z, side, side))
  {
    names := names0;
    var x := 0;
    while x < side
      invariant 0 <= x <= side
      invariant names == Names(tiles0 + Square(z, x, side))
    {
      names := ListColumn(names, tiles0 + Square(z, x, side), z, x, side);
      Regroup(tiles0, Square(z, x, side), Column(z, x, side));
      x := x + 1;
    }
  }

  /** The innermost loop: the names of tiles `(z, x, 0)` to `(z, x, side - 1)`, appended. */
  method ListColumn(names0: seq<string>, ghost tiles0: seq<Tile>, z: int, x: int, side: nat) returns (names: seq<string>)
    requires names0 == Names(tiles0)
    ensures names == Names(tiles0 + Column(z, x, side))
  {
    names := names0;
    var y := 0;
    while y < side
      invariant 0 <= y <= side
      invariant names == Names(tiles0 + Column(z, x, y))
    {
      NamesAppend(tiles0 + Column(z, x, y), Tile(z, x, y));
      Regroup(tiles0, Column(z, x, y), [Tile(z, x, y)]);
      names := names + [TileName(z, x, y)];
      y := y + 1;
    }
  }

  /** The folder name `f"{i:04d}"` of year `i`. */
  function Folder(i: nat): string
  {
    Pad4(IntToString(i))
  }

  /** Year folder `year` exists and holds a file called `name`. */
  predicate Holds(listing: map<string, set<string>>, year: nat, name: string)
  {
    Folder(year) in listing && name in listing[Folder(year)]
  }

  /** The years `1..n` whose folder exists and holds a file called `name`, ascending. */
  function YearsOf(name: string, listing: map<string, set<string>>, n: nat): seq<nat>
  {
    if n == 0 then []
    else YearsOf(name, listing, n - 1) + (if Holds(listing, n, name) then [n] else [])
  }

  /** A year is listed for a name exactly when its folder exists and holds that name. */
  lemma {:induction false} YearsOfMembers(name: string, listing: map<string, set<string>>, n: nat)
    ensures forall j :: j in YearsOf(name, listing, n) <==> 1 <= j <= n && Holds(listing, j, name)
  {
    if n > 0 {
      YearsOfMembers(name, listing, n - 1);
    }
  }

  /** No year beyond `n` is listed. */
  lemma {:induction false} YearsOfBounded(name: string, listing: map<string, set<string>>, n: nat)
    ensures forall k :: 0 <= k < |YearsOf(name, listing, n)| ==> YearsOf(name, listing, n)[k] <= n
  {
    if n > 0 {
      YearsOfBounded(name, listing, n - 1);
    }
  }

  /** Every year list is strictly ascending, hence without repetitions. */
  lemma {:induction false} YearsOfAscending(name: string, listing: map<string, set<string>>, n: nat)
    ensures forall a, b :: 0 <= a < b < |YearsOf(name, listing, n)| ==>
      YearsOf(name, listing, n)[a] < YearsOf(name, listing, n)[b]
  {
    if n > 0 {
      var ys0 := YearsOf(name, listing, n - 1);
      var last := if Holds(listing, n, name) then [n] else [];
      assert YearsOf(name, listing, n) == ys0 + last;
      YearsOfAscending(name, listing, n - 1);
      YearsOfBounded(name, listing, n - 1);
      AppendLargest(ys0, n, last);
    }
  }

  /** Appending `n` or nothing to an ascending list of numbers below `n` keeps it ascending. */
  lemma AppendLargest(ys: seq<nat>, n: nat, last: seq<nat>)
    requires forall a, b :: 0 <= a < b < |ys| ==> ys[a] < ys[b]
    requires forall k :: 0 <= k < |ys| ==> ys[k] <= n - 1
    requires last == [] || last == [n]
    ensures forall a, b :: 0 <= a < b < |ys + last| ==> (ys + last)[a] < (ys + last)[b]
  {
    var zs := ys + last;
    forall a, b | 0 <= a < b < |zs| ensures zs[a] < zs[b] {
      assert zs[a] == ys[a];
      if b < |ys| {
        assert zs[b] == ys[b];
      }
    }
  }

  /**
   * `find_png_files_and_save_locations` up to writing the JSON file: the
   * target names, and for each exactly the ascending list of years whose
   * folder holds it; other file names are ignored.
   */
  method FindLocations(listing: map<string, set<string>>, numFolders: nat)
    returns (found: map<string, seq<nat>>)
    ensures found.Keys == set name | name in Targets()
    ensures forall name :: name in found ==> found[name] == YearsOf(name, listing, numFolders)
  {
    found := LocateNames(listing, numFolders, TOP_ZOOM);
  }

  /** Each list of `found` holds exactly the years `1..n` whose folder holds its name. */
  ghost predicate ListsHolders(found: map<string, seq<nat>>, listing: map<string, set<string>>, n: nat)
  {
    forall name, j: nat :: name in found ==> (j in found[name] <==> 1 <= j <= n && Holds(listing, j, name))
  }

  /**
   * The script run as a program: the search over the folders `0001` to
   * `2022`, with a list for every target name; by `ListedYears`, a list
   * holds exactly the years of that range whose folder holds the name.
   */
  method BuildManifest(listing: map<string, set<string>>) returns (found: map<string, seq<nat>>)
    ensures found.Keys == set name | name in Targets()
    ensures forall name :: name in found ==> found[name] == YearsOf(name, listing, NUM_IMG_FOLDERS)
  {
    found := FindLocations(listing, NUM_IMG_FOLDERS);
  }

  /** Lists that are the `YearsOf` their names hold exactly the years `1..n` whose folder holds the name. */
  lemma ListedYears(found: map<string, seq<nat>>, listing: map<string, set<string>>, n: nat)
    requires forall name :: name in found ==> found[name] == YearsOf(name, listing, n)
    ensures ListsHolders(found, listing, n)
  {
    forall name | name in found
      ensures forall j: nat :: j in found[name] <==> 1 <= j <= n && Holds(listing, j, name)
    {
      YearsOfMembers(name, listing, n);
    }
  }

  /** The body of `FindLocations` for the zoom levels `1..top`. */
  method LocateNames(listing: map<string, set<string>>, numFolders: nat, top: nat)
    returns (found: map<string, seq<nat>>)
    ensures found.Keys == set name | name in Names(Levels(top))
    ensures forall name :: name in found ==> found[name] == YearsOf(name, listing, numFolders)
  {
    var targets := ListLevels(top);
    found := map name | name in targets :: [];
    var i := 1;
    while i <= numFolders
      invariant 1 <= i <= numFolders + 1
      invariant found.Keys == set name | name in targets
      invariant forall name :: name in found ==> found[name] == YearsOf(name, listing, i - 1)
    {
      found := ScanFolder(found, listing, i);
      i := i + 1;
    }
  }

  /** One pass of the outer loop: year folder `i`, when it exists, extends the lists of the names it holds. */
  method ScanFolder(found0: map<string, seq<nat>>, listing: map<string, set<string>>, i: nat)
    returns (found: map<string, seq<nat>>)
    requires i >= 1
    requires forall name :: name in found0 ==> found0[name] == YearsOf(name, listing, i - 1)
    ensures found.Keys == found0.Keys
    ensures forall name :: name in found ==> found[name] == YearsOf(name, listing, i)
  {
    found := found0;
    var folder := Folder(i);
    if folder in listing {
      found := RecordFolder(found, listing[folder], i);
    }
  }

  /** The inner loop: append `year` to the list of every tracked name among `files`. */
  method RecordFolder(found0: map<string, seq<nat>>, files: set<string>, year: nat)
    returns (found: map<string, seq<nat>>)
    ensures found.Keys == found0.Keys
    ensures forall name :: name in found ==>
      found[name] == found0[name] + (if name in files then [year] else [])
  {
    found := found0;
    var rest := files;
    while rest != {}
      invariant rest <= files
      invariant found.Keys == found0.Keys
      invariant forall name :: name in found ==>
        found[name] == found0[name] + (if name in files - rest then [year] else [])
      decreases |rest|
    {
      var filename :| filename in rest;
      ghost var seen := files - rest;
      if filename in found {
        found := found[filename := found[filename] + [year]];
      }
      rest := rest - {filename};
      assert files - rest == seen + {filename};
    }
  }
}
