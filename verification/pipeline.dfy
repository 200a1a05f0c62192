/**
 * DatabasePipeline of pipeline.py: the hook the scraper calls for every
 * series, episode and download it meets. It remembers, per series URL, the
 * id it last saw or saved, and skips the save on a remembered URL.
 */
module Pipeline {
  import opened Wrappers
  import opened Models
  import opened Repositories
  import opened Services
  import opened DownloadServices
  import opened Integration

  /** The URL `process_anime` and `process_episode` read: `data.get('url')`. */
  function DataUrl(f: Field<string>): Option<string> {
    Get(f, None)
  }

  /**
   * Every remembered URL maps to the key the series table's URL lookup
   * lands on: a cache hit answers what a lookup in the table would.
   */
  ghost predicate CacheAgrees(cache: map<string, Option<int>>, t: map<int, AnimeSeries>, next: int) {
    forall u :: u in cache ==> cache[u] == SeriesKeyByUrl(t, next, Some(u))
  }

  /**
   * Saving one series' scraped data keeps every URL the table already
   * found on the key it found it on: the saved row keeps its URL, a new row
   * is appended after every old one, and no other row changes.
   */
  lemma SeriesStoredKeepsLookup(t: map<int, AnimeSeries>, next: int, t': map<int, AnimeSeries>, next': int,
                                d: AnimeData, cover: Option<Bytes>, u: string)
    requires SeriesKeyed(t, next)
    requires SeriesStored(t, next, t', next', d, cover)
    requires SeriesKeyByUrl(t, next, Some(u)).Some?
    ensures SeriesKeyByUrl(t', next', Some(u)) == SeriesKeyByUrl(t, next, Some(u))
  {
    var j := SeriesKeyByUrl(t, next, Some(u)).value;
    var k := SeriesKeyFor(t, next, SeriesUrl(d));
    if Some(u) == SeriesUrl(d) {
      assert k == j;
    } else if k in t {
      assert SeriesKeyByUrl(t, next, SeriesUrl(d)).Some?;
      assert t'[k].aniworldUrl == t[k].aniworldUrl;
      SeriesKeyByUrlSameUrls(t', t, next, Some(u));
    } else {
      assert k == next && next' == next + 1;
      assert t'[k].aniworldUrl == SeriesUrl(d);
      var r := SeriesKeyByUrl(t', next', Some(u));
      assert j in t' && t'[j] == t[j] && 1 <= j < next';
      assert r.Some?;
      assert r.value != k;
      assert r.value in t && t'[r.value] == t[r.value];
    }
  }

  /** The cache stays in agreement with the series table across one save of scraped data. */
  lemma SeriesStoredKeepsCache(cache: map<string, Option<int>>, t: map<int, AnimeSeries>, next: int,
                               t': map<int, AnimeSeries>, next': int, d: AnimeData, cover: Option<Bytes>)
    requires SeriesKeyed(t, next) && SeriesStored(t, next, t', next', d, cover)
    requires CacheAgrees(cache, t, next)
    requires forall u :: u in cache ==> cache[u].Some?
    ensures CacheAgrees(cache, t', next')
  {
    forall u | u in cache
      ensures cache[u] == SeriesKeyByUrl(t', next', Some(u))
    {
      SeriesStoredKeepsLookup(t, next, t', next', d, cover, u);
    }
  }

  /** The cache after a lookup that found `found` and a save that gave `saved`. */
  function Remembered(cache: map<string, Option<int>>, url: string, found: Option<int>, saved: Result<int>)
    : (r: map<string, Option<int>>)
    ensures r.Keys == if found.Some? || saved.Ok? then cache.Keys + {url} else cache.Keys
    ensures forall u :: u in cache && u != url ==> r[u] == cache[u]
    ensures saved.Ok? ==> r[url] == Some(saved.value)
    ensures saved.Raised? && found.Some? ==> r[url] == found
  {
    var c1 := if found.Some? then cache[url := found] else cache;
    if saved.Ok? then c1[url := Some(saved.value)] else c1
  }

  /**
   * The cache `process_anime` leaves after a save: a series the URL found
   * before the save is remembered first, then a saved id replaces it. The
   * result still agrees with the table the save left, and a saved id is
   * positive.
   */
  lemma SaveKeepsCache(cache: map<string, Option<int>>, t: map<int, AnimeSeries>, next: int,
                       t': map<int, AnimeSeries>, next': int, d: AnimeData, cover: Option<Bytes>,
                       url: string, saved: Result<int>)
    requires SeriesKeyed(t, next) && SeriesStored(t, next, t', next', d, cover)
    requires saved.Ok? ==> saved.value == SeriesKeyFor(t, next, SeriesUrl(d))
    requires DataUrl(d.url) == Some(url)
    requires CacheAgrees(cache, t, next) && forall u :: u in cache ==> cache[u].Some?
    ensures saved.Ok? ==> saved.value > 0
    ensures var c2 := Remembered(cache, url, SeriesKeyByUrl(t, next, Some(url)), saved);
      && CacheAgrees(c2, t', next') && forall u :: u in c2 ==> c2[u].Some?
  {
    var found := SeriesKeyByUrl(t, next, Some(url));
    var c1 := FoundCached(cache, t, next, url);
    assert SeriesUrl(d) == Some(url);
    SeriesStoredKeepsCache(c1, t, next, t', next', d, cover);
    SavedKeyFound(t, next, t', next', d, cover, url);
    SavedIdCached(cache, c1, url, found, saved, t', next');
  }

  /** The cache with the found key remembered still agrees with the table. */
  lemma FoundCached(cache: map<string, Option<int>>, t: map<int, AnimeSeries>, next: int, url: string)
    returns (c1: map<string, Option<int>>)
    requires CacheAgrees(cache, t, next) && forall u :: u in cache ==> cache[u].Some?
    ensures var found := SeriesKeyByUrl(t, next, Some(url));
      c1 == if found.Some? then cache[url := found] else cache
    ensures CacheAgrees(c1, t, next) && forall u :: u in c1 ==> c1[u].Some?
  {
    var found := SeriesKeyByUrl(t, next, Some(url));
    c1 := if found.Some? then cache[url := found] else cache;
  }

  /** Caching a saved id that the URL finds keeps the cache in agreement with the table. */
  lemma SavedIdCached(cache: map<string, Option<int>>, c1: map<string, Option<int>>, url: string, found: Option<int>,
                      saved: Result<int>, t': map<int, AnimeSeries>, next': int)
    requires c1 == if found.Some? then cache[url := found] else cache
    requires CacheAgrees(c1, t', next') && forall u :: u in c1 ==> c1[u].Some?
    requires saved.Ok? ==> SeriesKeyByUrl(t', next', Some(url)) == Some(saved.value)
    ensures var c2 := Remembered(cache, url, found, saved);
      && CacheAgrees(c2, t', next') && forall u :: u in c2 ==> c2[u].Some?
  {
    assert Remembered(cache, url, found, saved) == if saved.Ok? then c1[url := Some(saved.value)] else c1;
  }

  /** After the save, the URL finds the key the series half wrote, which is positive. */
  lemma SavedKeyFound(t: map<int, AnimeSeries>, next: int, t': map<int, AnimeSeries>, next': int,
                      d: AnimeData, cover: Option<Bytes>, url: string)
    requires SeriesKeyed(t, next) && SeriesStored(t, next, t', next', d, cover) && SeriesUrl(d) == Some(url)
    ensures SeriesKeyByUrl(t', next', Some(url)) == Some(SeriesKeyFor(t, next, Some(url)))
    ensures SeriesKeyFor(t, next, Some(url)) > 0
  {
  }

  /** The series the URL lookup returns carries the key SeriesKeyByUrl names. */
  lemma FoundCarriesKey(t: map<int, AnimeSeries>, next: int, url: Option<string>)
    requires SeriesKeyed(t, next)
    ensures SeriesByUrl(t, next, url).None? <==> SeriesKeyByUrl(t, next, url).None?
    ensures SeriesByUrl(t, next, url).Some? ==> SeriesByUrl(t, next, url).value.seriesId == SeriesKeyByUrl(t, next, url)
  {
  }

  /**
   * The cache updates of `process_anime` after the save: the id `found`
   * first, then a positive saved id, which is also the answer.
   */
  method Remember(cache: map<string, Option<int>>, url: string, found: Option<int>, result: Result<int>)
    returns (remembered: map<string, Option<int>>, r: Option<int>)
    ensures result.Ok? && result.value > 0 ==> r == Some(result.value)
    ensures !(result.Ok? && result.value > 0) ==> r == None
    ensures var c1 := if found.Some? then cache[url := found] else cache;
      remembered == if r.Some? then c1[url := r] else c1
  {
    remembered := cache;
    if found.Some? {
      remembered := remembered[url := found];
    }
    r := None;
    if result.Ok? {
      var animeId := result.value;
      if animeId > 0 {
        remembered := remembered[url := Some(animeId)];
        r := Some(animeId);
      }
    }
  }

  /** The dictionary `record_download` reads: four optional strings. */
  datatype DownloadData = DownloadData(
    episodeUrl: Field<string>,
    provider: Field<string>,
    sprache: Field<string>,
    zieldatei: Field<string>)

  /** The four values are all present and non-empty. */
  predicate DownloadDataComplete(dd: DownloadData) {
    && TruthyStr(DataUrl(dd.episodeUrl)) && TruthyStr(DataUrl(dd.provider))
    && TruthyStr(DataUrl(dd.sprache)) && TruthyStr(DataUrl(dd.zieldatei))
  }

  class DatabasePipeline {
    /** The integration, or null when building it failed. */
    const integration: DatabaseIntegration?
    /** The database the integration works on. */
    ghost const store: Database
    /** `_cache`: series URL to the id remembered for it. */
    var cache: map<string, Option<int>>

    ghost predicate Valid()
      reads this, store
    {
      && store.Valid()
      && (integration != null ==> integration.db == store && integration.Valid())
      && (forall u :: u in cache ==> cache[u].Some?)
      && CacheAgrees(cache, store.series, store.nextSeriesId)
    }

    /** `__init__`: `integration` is null when connecting failed; the cache starts empty. */
    constructor(integration: DatabaseIntegration?, ghost store: Database)
      requires store.Valid()
      requires integration != null ==> integration.db == store && integration.Valid()
      ensures this.integration == integration && this.store == store
      ensures cache == map[] && Valid()
    {
      this.integration := integration;
      this.store := store;
      cache := map[];
    }

    /**
     * `process_anime`. Without a database or a non-empty URL nothing
     * happens and the answer is None; a remembered URL answers from the
     * cache without saving. Otherwise a series the URL already finds is
     * remembered first, then the data is saved (`saved` is what the save
     * did): a saved id is remembered and returned, a failed save answers
     * None. Any id returned is the one the URL finds in the table.
     */
    method ProcessAnime(data: AnimeData, cover: Option<Bytes>) returns (r: Option<int>, ghost saved: Result<int>)
      requires Valid()
      modifies this`cache, store`series, store`nextSeriesId, store`clock, store`seasons, store`nextSeasonId,
               store`episodes, store`nextEpisodeId
      ensures Valid()
      ensures var url := DataUrl(data.url);
        integration == null || !TruthyStr(url) ==> r == None && cache == old(cache) && unchanged(store)
      ensures var url := DataUrl(data.url);
        integration != null && TruthyStr(url) && url.value in old(cache) ==>
          r == old(cache)[url.value] && cache == old(cache) && unchanged(store)
      ensures var url := DataUrl(data.url);
        var found := old(SeriesKeyByUrl(store.series, store.nextSeriesId, url));
        integration != null && TruthyStr(url) && url.value !in old(cache) ==>
          && ScraperDataSaved(old(store.series), old(store.nextSeriesId), old(CatalogOf(store)),
                              store.series, store.nextSeriesId, CatalogOf(store), data, cover, saved)
          && r == (if saved.Ok? then Some(saved.value) else None)
          && cache == Remembered(old(cache), url.value, found, saved)
      ensures r.Some? ==> r == SeriesKeyByUrl(store.series, store.nextSeriesId, DataUrl(data.url))
    {
      saved := Raised(TypeError);
      if integration == null {
        return None, saved;
      }
      var url := DataUrl(data.url);
      if !TruthyStr(url) {
        return None, saved;
      }
      if url.value in cache {
        return cache[url.value], saved;
      }
      r, saved := SaveAnime(url.value, data, cover);
    }

    /**
     * The part of `process_anime` past the cache: remember a series the URL
     * already finds, save the data, and remember and return the id saved.
     * The entries are collected in a local map and stored once, after the
     * save, which the save does not read.
     */
    method SaveAnime(url: string, data: AnimeData, cover: Option<Bytes>) returns (r: Option<int>, ghost saved: Result<int>)
      requires Valid() && integration != null
      requires DataUrl(data.url) == Some(url) && url !in cache
      modifies this`cache, store`series, store`nextSeriesId, store`clock, store`seasons, store`nextSeasonId,
               store`episodes, store`nextEpisodeId
      ensures Valid()
      ensures ScraperDataSaved(old(store.series), old(store.nextSeriesId), old(CatalogOf(store)),
                               store.series, store.nextSeriesId, CatalogOf(store), data, cover, saved)
      ensures r == (if saved.Ok? then Some(saved.value) else None)
      ensures cache == Remembered(old(cache), url, old(SeriesKeyByUrl(store.series, store.nextSeriesId, Some(url))), saved)
    {
      ghost var t, next := store.series, store.nextSeriesId;
      var existing, result := LookUpAndSave(url, data, cover);
      saved := result;
      SaveKeepsCache(cache, t, next, store.series, store.nextSeriesId, data, cover, url, result);
      FoundCarriesKey(t, next, Some(url));
      var found := if existing.Some? then existing.value.seriesId else None;
      var remembered;
      remembered, r := Remember(cache, url, found, result);
      cache := remembered;
    }

    /** The two integration calls of `process_anime`: the lookup of the URL, then the save. */
    method LookUpAndSave(url: string, data: AnimeData, cover: Option<Bytes>)
      returns (existing: Option<AnimeSeries>, result: Result<int>)
      requires Valid() && integration != null
      modifies store`series, store`nextSeriesId, store`clock, store`seasons, store`nextSeasonId,
               store`episodes, store`nextEpisodeId
      ensures store.Valid() && integration.Valid()
      ensures existing == old(SeriesByUrl(store.series, store.nextSeriesId, Some(url)))
      ensures ScraperDataSaved(old(store.series), old(store.nextSeriesId), old(CatalogOf(store)),
                               store.series, store.nextSeriesId, CatalogOf(store), data, cover, result)
    {
      existing := integration.GetAnimeByUrl(url);
      result := integration.SaveAnimeData(data, cover);
    }

    /**
     * `process_episode`: the id of the episode the URL finds, or None when
     * there is no database, no non-empty URL or no such episode. It never
     * writes.
     */
    method ProcessEpisode(data: EpisodeData) returns (r: Option<int>)
      requires Valid()
      ensures var url := DataUrl(data.url);
        r.Some? <==> integration != null && TruthyStr(url)
                     && EpisodeByUrl(store.episodes, store.nextEpisodeId, url).Some?
      ensures r.Some? ==> r.value in store.episodes && store.episodes[r.value].aniworldUrl == DataUrl(data.url)
    {
      if integration == null {
        return None;
      }
      var url := DataUrl(data.url);
      if !TruthyStr(url) {
        return None;
      }
      var episode := integration.GetEpisodeData(url.value);
      if episode.Some? {
        return episode.value.episodeId;
      }
      return None;
    }

    /**
     * `record_download`: None without a database or with any of the four
     * values missing or empty; otherwise the integration's answer, which is
     * always -1, so None as well. It never writes.
     */
    method RecordDownload(dd: DownloadData) returns (r: Option<int>)
      requires Valid()
      ensures r == None
    {
      if integration == null {
        return None;
      }
      if !DownloadDataComplete(dd) {
        return None;
      }
      var downloadId := integration.RecordDownload(DataUrl(dd.episodeUrl).value, DataUrl(dd.provider).value,
                                                   DataUrl(dd.sprache).value, DataUrl(dd.zieldatei).value);
      if downloadId > 0 {
        return Some(downloadId);
      }
      return None;
    }

    /** `update_download_status`: False without a database, else the integration's answer. */
    method UpdateDownloadStatus(downloadId: int, status: string, probe: FileProbe) returns (ok: bool)
      requires Valid()
      modifies store`downloads, store`nextDownloadId, store`clock
      ensures Valid()
      ensures integration == null ==> !ok && unchanged(store)
      ensures integration != null ==>
        StatusUpdated(ok, store.downloads, store.nextDownloadId) ==
        UpdateDownloadStatusSpec(old(store.downloads), old(store.nextDownloadId), old(store.clock), downloadId,
                                 StatusUpdate(status, None, None, None), probe)
    {
      if integration == null {
        return false;
      }
      ok := integration.UpdateDownloadStatus(downloadId, status, probe);
    }

    /** `clear_cache`: forgets every remembered URL. */
    method ClearCache()
      requires Valid()
      modifies this`cache
      ensures cache == map[] && Valid()
    {
      cache := map[];
    }
  }

  /** The module-level `db_pipeline` behind `get_pipeline`. */
  class PipelineHolder {
    var instance: DatabasePipeline?

    constructor()
      ensures instance == null
    {
      instance := null;
    }

    /** `get_pipeline`: builds the pipeline on the first call, then always returns that one. */
    method GetPipeline(integration: DatabaseIntegration?, ghost store: Database) returns (pipeline: DatabasePipeline)
      requires store.Valid()
      requires integration != null ==> integration.db == store && integration.Valid()
      requires instance != null ==> instance.Valid()
      modifies this
      ensures old(instance) != null ==> pipeline == old(instance) && instance == old(instance)
      ensures old(instance) == null ==> fresh(pipeline) && pipeline.integration == integration && pipeline.cache == map[]
      ensures instance == pipeline && pipeline.Valid()
    {
      if instance == null {
        instance := new DatabasePipeline(integration, store);
      }
      pipeline := instance;
    }
  }
}
