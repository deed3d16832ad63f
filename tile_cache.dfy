/**
 * The tile cache of the canvas viewer (`getTileImage` and the module-level
 * `tileCache` Map in map.js). The cache maps a composite key to a promise
 * of an image. A miss starts one image load and stores its promise; a hit
 * hands back the stored promise. A failed front tile at zoom 4 to 6 is
 * retried one year earlier and its key is rebound to the retry's promise;
 * any other failed load removes its key and resolves to null.
 *
 * The browser's asynchronous image load is replaced by two event methods,
 * `LoadSucceeded` and `LoadFailed`, which the environment calls once for
 * each promise that is still loading. Promises are kept in a store and
 * named by their position in it, so that two keys can share one promise
 * exactly as they share one JavaScript object.
 */
module TileLoading {
  import opened Options
  import opened Decimal
  import opened Tiles

  /** The parts of the key `${retryYear}-${actualZoom}-${tileY}-${tileX}-${layer}`. */
  datatype TileKey = TileKey(year: int, zoom: int, tileY: int, tileX: int, layer: string)
  {
    /** The key of the retry request: the same tile one year earlier. */
    function Earlier(): TileKey { this.(year := year - 1) }

    /** The locator `generateTileUrl` gives for this key. */
    function Url(): string { TileUrl(year, zoom, tileY, tileX, layer) }
  }

  /** The string the source stores the entry under. */
  function KeyString(k: TileKey): string
  {
    IntToString(k.year) + ("-" + (IntToString(k.zoom) + ("-" + (IntToString(k.tileY)
      + ("-" + (IntToString(k.tileX) + ("-" + k.layer)))))))
  }

  /**
   * Distinct keys give distinct strings, even with negative years or
   * coordinates whose rendering starts with the separator itself; so
   * looking entries up by the key's fields is looking them up by string.
   */
  lemma KeyStringInjective(k1: TileKey, k2: TileKey)
    requires KeyString(k1) == KeyString(k2)
    ensures k1 == k2
  {
    var x1, x2 := IntToString(k1.tileX) + ("-" + k1.layer), IntToString(k2.tileX) + ("-" + k2.layer);
    var y1, y2 := IntToString(k1.tileY) + ("-" + x1), IntToString(k2.tileY) + ("-" + x2);
    var z1, z2 := IntToString(k1.zoom) + ("-" + y1), IntToString(k2.zoom) + ("-" + y2);
    IntFieldSplit(k1.year, z1, k2.year, z2, '-');
    IntFieldSplit(k1.zoom, y1, k2.zoom, y2, '-');
    IntFieldSplit(k1.tileY, x1, k2.tileY, x2, '-');
    IntFieldSplit(k1.tileX, k1.layer, k2.tileX, k2.layer, '-');
  }

  /** Whether a failed load of `k` is retried one year earlier. */
  predicate RetriesOnFailure(k: TileKey, minYear: int)
  {
    k.layer == "front" && 4 <= k.zoom <= 6 && k.year > minYear
  }

  /**
   * `a` is `k` itself or the same tile at an earlier year that a chain of
   * retries can reach: never below `minYear`.
   */
  predicate ReachedByRetry(a: TileKey, k: TileKey, minYear: int)
  {
    a == k || (a == k.(year := a.year) && minYear <= a.year < k.year)
  }

  /** A loaded image, named by the locator it was loaded from. */
  datatype Image = Image(url: string)

  /**
   * The state of one promise: its image is loading from `url`; it has
   * settled to an image or to null; or it resolves to whatever the retry
   * promise `next` resolves to.
   */
  datatype State = Loading(url: string) | Settled(image: Option<Image>) | Following(next: nat)

  datatype TilePromise = TilePromise(key: TileKey, state: State)

  /** What `getTileImage` returns: a promise already resolved to null, or a stored promise. */
  datatype Handle = Null | Promise(id: nat)

  /**
   * The promise at `id` agrees with the entries that name it, where
   * `locator` gives each key's image locator.
   */
  ghost predicate PromiseOk(entries: map<TileKey, nat>, promises: seq<TilePromise>, minYear: int,
                            locator: TileKey -> string, id: nat)
    requires id < |promises|
  {
    var p := promises[id];
    match p.state
    case Loading(url) =>
      // one load in flight per key: the key is still bound to this promise
      url == locator(p.key) && url != "" && p.key in entries && entries[p.key] == id
    case Settled(image) =>
      image.Some? ==> image.value.url == locator(p.key)
    case Following(next) =>
      next < |promises| && ReachedByRetry(promises[next].key, p.key, minYear)
      && promises[next].key != p.key
  }

  /** The invariant of the cache: every entry names a stored promise for its tile. */
  ghost predicate Consistent(entries: map<TileKey, nat>, promises: seq<TilePromise>, minYear: int,
                             locator: TileKey -> string)
  {
    && (forall k | k in entries :: entries[k] < |promises| && ReachedByRetry(promises[entries[k]].key, k, minYear))
    && (forall id | 0 <= id < |promises| :: PromiseOk(entries, promises, minYear, locator, id))
  }

  lemma MissKeepsConsistent(entries: map<TileKey, nat>, promises: seq<TilePromise>, minYear: int,
                            locator: TileKey -> string, k: TileKey)
    requires Consistent(entries, promises, minYear, locator) && k !in entries && locator(k) != ""
    ensures Consistent(entries[k := |promises|], promises + [TilePromise(k, Loading(locator(k)))], minYear, locator)
  {
    var e, ps := entries[k := |promises|], promises + [TilePromise(k, Loading(locator(k)))];
    forall id | 0 <= id < |ps| ensures PromiseOk(e, ps, minYear, locator, id) {
      if id < |promises| {
        assert PromiseOk(entries, promises, minYear, locator, id);
        assert ps[id] == promises[id];
      }
    }
  }

  lemma SuccessKeepsConsistent(entries: map<TileKey, nat>, promises: seq<TilePromise>, minYear: int,
                               locator: TileKey -> string, id: nat)
    requires Consistent(entries, promises, minYear, locator) && id < |promises| && promises[id].state.Loading?
    ensures promises[id].state.url == locator(promises[id].key)
    ensures Consistent(entries, promises[id := promises[id].(state := Settled(Some(Image(promises[id].state.url))))],
                       minYear, locator)
  {
    assert PromiseOk(entries, promises, minYear, locator, id);
    var ps := promises[id := promises[id].(state := Settled(Some(Image(promises[id].state.url))))];
    forall i | 0 <= i < |ps| ensures PromiseOk(entries, ps, minYear, locator, i) {
      assert PromiseOk(entries, promises, minYear, locator, i);
    }
  }

  lemma FailureKeepsConsistent(entries: map<TileKey, nat>, promises: seq<TilePromise>, minYear: int,
                               locator: TileKey -> string, id: nat)
    requires Consistent(entries, promises, minYear, locator) && id < |promises| && promises[id].state.Loading?
    ensures var k := promises[id].key;
      Consistent(entries - {k}, promises[id := TilePromise(k, Settled(None))], minYear, locator)
  {
    var k := promises[id].key;
    var e, ps := entries - {k}, promises[id := TilePromise(k, Settled(None))];
    assert PromiseOk(entries, promises, minYear, locator, id);
    forall i | 0 <= i < |ps| ensures PromiseOk(e, ps, minYear, locator, i) {
      assert PromiseOk(entries, promises, minYear, locator, i);
    }
  }

  lemma RetryKeepsConsistent(entries: map<TileKey, nat>, promises: seq<TilePromise>, minYear: int,
                             locator: TileKey -> string, id: nat)
    requires Consistent(entries, promises, minYear, locator) && id < |promises| && promises[id].state.Loading?
    requires RetriesOnFailure(promises[id].key, minYear) && promises[id].key.Earlier() in entries
    ensures var k := promises[id].key;
      var next := entries[k.Earlier()];
      next != id && Consistent(entries[k := next], promises[id := TilePromise(k, Following(next))], minYear, locator)
  {
    var k := promises[id].key;
    var next := entries[k.Earlier()];
    var e, ps := entries[k := next], promises[id := TilePromise(k, Following(next))];
    assert PromiseOk(entries, promises, minYear, locator, id);
    assert next < |promises| && ReachedByRetry(promises[next].key, k.Earlier(), minYear);
    assert next != id by {
      assert promises[next].key.year < k.year;
    }
    assert forall j | 0 <= j < |ps| :: ps[j].key == promises[j].key;
    forall key | key in e ensures e[key] < |ps| && ReachedByRetry(ps[e[key]].key, key, minYear) {
      if key != k {
        assert e[key] == entries[key];
      }
    }
    forall i | 0 <= i < |ps| ensures PromiseOk(e, ps, minYear, locator, i) {
      if i != id {
        assert ps[i] == promises[i];
        assert PromiseOk(entries, promises, minYear, locator, i);
        if promises[i].state.Loading? {
          assert promises[i].key != k;
        }
      }
    }
  }

  /**
   * The cache went from `(e0, p0)` to `(e1, p1)` by additions only: every
   * key keeps the promise it was stored with, and earlier promises are
   * untouched.
   */
  ghost predicate Grows(e0: map<TileKey, nat>, p0: seq<TilePromise>, e1: map<TileKey, nat>, p1: seq<TilePromise>)
  {
    && (forall k | k in e0 :: k in e1 && e1[k] == e0[k])
    && p0 <= p1
  }

  /** Growth by additions composes. */
  lemma GrowsTransitive(e0: map<TileKey, nat>, p0: seq<TilePromise>, e1: map<TileKey, nat>, p1: seq<TilePromise>,
                        e2: map<TileKey, nat>, p2: seq<TilePromise>)
    requires Grows(e0, p0, e1, p1) && Grows(e1, p1, e2, p2)
    ensures Grows(e0, p0, e2, p2)
  { }

  /** The locator of a key, as a function value. */
  function Locator(k: TileKey): string
  {
    k.Url()
  }

  class TileCache {
    /** `MAP_MIN_YEAR`, which the viewer's page defines. */
    const minYear: int
    /** `tileCache`: key to the promise stored under it. */
    var entries: map<TileKey, nat>
    /** Every promise created so far, named by its index. */
    var promises: seq<TilePromise>

    ghost predicate Valid()
      reads this
    {
      Consistent(entries, promises, minYear, Locator)
    }

    constructor (minYear: int)
      ensures Valid()
      ensures this.minYear == minYear && entries == map[] && promises == []
    {
      this.minYear := minYear;
      entries := map[];
      promises := [];
    }

    /**
     * The value a promise has settled to (`Some(image or null)`), following
     * retries, or `None` while it is still pending. Retry chains end because
     * each step goes one year back and no step goes below `minYear`.
     */
    ghost function Outcome(id: nat): Option<Option<Image>>
      reads this
      requires Valid() && id < |promises|
      decreases promises[id].key.year - minYear
    {
      match promises[id].state
      case Loading(_) => None
      case Settled(image) => Some(image)
      case Following(next) =>
        assert PromiseOk(entries, promises, minYear, Locator, id);
        Outcome(next)
    }

    /**
     * `getTileImage(year, actualZoom, tileY, tileX, layer, retryYear)`: a
     * hit returns the stored promise and changes nothing; an invalid
     * request resolves to null and stores nothing; any other miss starts a
     * load and stores its promise under the key before returning it.
     */
    method GetTileImage(zoom: int, tileY: int, tileX: int, layer: string, retryYear: int) returns (h: Handle)
      requires Valid()
      modifies this
      ensures Valid()
      ensures var k := TileKey(retryYear, zoom, tileY, tileX, layer);
        && (k in old(entries) ==>
              h == Promise(old(entries)[k]) && entries == old(entries) && promises == old(promises))
        && (k !in old(entries) && k.Url() == "" ==>
              h == Null && entries == old(entries) && promises == old(promises))
        && (k !in old(entries) && k.Url() != "" ==>
              && h == Promise(|old(promises)|)
              && promises == old(promises) + [TilePromise(k, Loading(k.Url()))]
              && entries == old(entries)[k := |old(promises)|])
      ensures Grows(old(entries), old(promises), entries, promises)
      ensures var k := TileKey(retryYear, zoom, tileY, tileX, layer);
        k.Url() != "" ==> k in entries && h == Promise(entries[k])
    {
      var k := TileKey(retryYear, zoom, tileY, tileX, layer);
      if k in entries {
        return Promise(entries[k]);
      }
      var url := k.Url();
      if url == "" {
        return Null;
      }
      var id := |promises|;
      promises := promises + [TilePromise(k, Loading(url))];
      entries := entries[k := id];
      h := Promise(id);
      MissKeepsConsistent(old(entries), old(promises), minYear, Locator, k);
    }

    /** The image of promise `id` loaded (`img.onload`). */
    method LoadSucceeded(id: nat)
      requires Valid() && id < |promises| && promises[id].state.Loading?
      modifies this
      ensures Valid()
      ensures entries == old(entries)
      ensures promises == old(promises)[id := old(promises[id]).(state := Settled(Some(Image(old(promises[id].state.url)))))]
      ensures Outcome(id) == Some(Some(Image(old(promises[id].key).Url())))
    {
      SuccessKeepsConsistent(entries, promises, minYear, Locator, id);
      var p := promises[id];
      promises := promises[id := p.(state := Settled(Some(Image(p.state.url))))];
    }

    /**
     * The image of promise `id` failed to load (`img.onerror`). A front tile
     * at zoom 4..6 above `minYear` asks for the same tile a year earlier and
     * rebinds its key to that request's promise; any other failure removes
     * the key and settles the promise to null.
     */
    method LoadFailed(id: nat)
      requires Valid() && id < |promises| && promises[id].state.Loading?
      modifies this
      ensures Valid()
      ensures var k := old(promises[id].key);
        && (!RetriesOnFailure(k, minYear) ==>
              && entries == old(entries) - {k}
              && promises == old(promises)[id := TilePromise(k, Settled(None))]
              && Outcome(id) == Some(None))
        && (RetriesOnFailure(k, minYear) && k.Earlier() in old(entries) ==>
              && entries == old(entries)[k := old(entries)[k.Earlier()]]
              && promises == old(promises)[id := TilePromise(k, Following(old(entries)[k.Earlier()]))])
        && (RetriesOnFailure(k, minYear) && k.Earlier() !in old(entries) ==>
              var next := |old(promises)|;
              && entries == old(entries)[k.Earlier() := next][k := next]
              && promises == (old(promises) + [TilePromise(k.Earlier(), Loading(k.Earlier().Url()))])[id := TilePromise(k, Following(next))])
    {
      var k := promises[id].key;
      if RetriesOnFailure(k, minYear) {
        var h := GetTileImage(k.zoom, k.tileY, k.tileX, k.layer, k.year - 1);
        assert promises[id] == old(promises[id]);
        RetryKeepsConsistent(entries, promises, minYear, Locator, id);
        entries := entries[k := h.id];
        promises := promises[id := TilePromise(k, Following(h.id))];
      } else {
        FailureKeepsConsistent(entries, promises, minYear, Locator, id);
        entries := entries - {k};
        promises := promises[id := TilePromise(k, Settled(None))];
      }
    }
  }

  /** At most one load is in flight per key. */
  lemma SingleFlight(c: TileCache, id1: nat, id2: nat)
    requires c.Valid() && id1 < |c.promises| && id2 < |c.promises|
    requires c.promises[id1].state.Loading? && c.promises[id2].state.Loading?
    requires c.promises[id1].key == c.promises[id2].key
    ensures id1 == id2
  {
    assert PromiseOk(c.entries, c.promises, c.minYear, Locator, id1);
    assert PromiseOk(c.entries, c.promises, c.minYear, Locator, id2);
  }

  /**
   * A retry asks for the same tile strictly earlier, never below
   * `minYear`, so a chain of retries from year `y` has at most
   * `y - minYear` steps.
   */
  lemma RetriesDescend(c: TileCache, id: nat)
    requires c.Valid() && id < |c.promises| && c.promises[id].state.Following?
    ensures var next := c.promises[id].state.next;
      && next < |c.promises|
      && c.minYear <= c.promises[next].key.year < c.promises[id].key.year
      && c.promises[next].key == c.promises[id].key.(year := c.promises[next].key.year)
  {
    assert PromiseOk(c.entries, c.promises, c.minYear, Locator, id);
  }
}
