/**
 * DatabaseIntegration of integration.py: the scraper's entry point to the
 * services, translating exceptions into sentinel results (None, [], -1,
 * False) everywhere except in `save_anime_data`, which re-raises.
 * Storage failures are not part of the model, so the only exceptions that
 * reach a handler are the ones the modelled code itself raises.
 */
module Integration {
  import opened Wrappers
  import opened Models
  import opened Repositories
  import opened Services
  import opened DownloadServices

  /** The dictionary `get_active_downloads` builds per download: its eight keys. */
  datatype DownloadSummary = DownloadSummary(
    downloadId: Option<int>,
    episodeId: int,
    providerId: int,
    languageId: int,
    downloadPfad: Option<string>,
    status: string,
    downloadDatum: Option<Timestamp>,
    qualitaet: Option<string>)

  /**
   * The dictionary of one download, with 'download_pfad' read from the
   * download's local path (`Download` has no download_pfad attribute).
   */
  function Summary(d: Download): (s: DownloadSummary)
    ensures s.downloadId == d.downloadId && s.episodeId == d.episodeId && s.status == d.status
    ensures s.downloadPfad == d.lokalerPfad && s.downloadDatum == d.downloadDatum
  {
    DownloadSummary(d.downloadId, d.episodeId, d.providerId, d.languageId, d.lokalerPfad,
                    d.status, d.downloadDatum, d.qualitaet)
  }

  /** The dictionaries of a list of downloads, in order. */
  function Summaries(ds: seq<Download>): (r: seq<DownloadSummary>)
    ensures |r| == |ds| && forall i :: 0 <= i < |ds| ==> r[i] == Summary(ds[i])
  {
    if ds == [] then [] else Summaries(ds[..|ds| - 1]) + [Summary(ds[|ds| - 1])]
  }

  /**
   * The summaries of the active downloads: one per position of the active
   * list, in the same order, each with a status 'geplant' or 'läuft' and
   * the id of the stored row it summarises; and every stored download that
   * is active has its summary in the list.
   */
  lemma ActiveSummaries(t: map<int, Download>, next: int, clock: Timestamp)
    requires DownloadsKeyed(t, next, clock)
    ensures var r := Summaries(ActiveDownloads(t, next));
      && |r| == |ActiveDownloads(t, next)|
      && (forall i :: 0 <= i < |r| ==> r[i].status == "geplant" || r[i].status == "läuft")
      && (forall i :: 0 <= i < |r| ==> r[i].downloadId.Some? && r[i].downloadId.value in t
                                       && Summary(t[r[i].downloadId.value]) == r[i])
      && (forall k :: k in t && IsActive(t[k]) ==> Summary(t[k]) in r)
  {
    SummariesSound(t, next, clock);
    SummariesComplete(t, next, clock);
  }

  /** Each summary returned is that of a stored active download. */
  lemma SummariesSound(t: map<int, Download>, next: int, clock: Timestamp)
    requires DownloadsKeyed(t, next, clock)
    ensures var r := Summaries(ActiveDownloads(t, next));
      forall i :: 0 <= i < |r| ==>
        && IsActive(ActiveDownloads(t, next)[i]) && r[i].downloadId.Some?
        && r[i].downloadId.value in t && Summary(t[r[i].downloadId.value]) == r[i]
  {
    var a := ActiveDownloads(t, next);
    var r := Summaries(a);
    forall i | 0 <= i < |r|
      ensures IsActive(a[i]) && r[i].downloadId.Some? && r[i].downloadId.value in t && t[r[i].downloadId.value] == a[i]
    {
      assert a[i] in a;
    }
  }

  /** Every stored active download has its summary among those returned. */
  lemma SummariesComplete(t: map<int, Download>, next: int, clock: Timestamp)
    requires DownloadsKeyed(t, next, clock)
    ensures forall k :: k in t && IsActive(t[k]) ==> Summary(t[k]) in Summaries(ActiveDownloads(t, next))
  {
    var a := ActiveDownloads(t, next);
    var r := Summaries(a);
    forall k | k in t && IsActive(t[k])
      ensures Summary(t[k]) in r
    {
      assert t[k] in a;
      var i :| 0 <= i < |a| && a[i] == t[k];
      assert r[i] == Summary(t[k]);
    }
  }

  /** An `except Exception` handler that returns `fallback`: the value on success, else the fallback. */
  function Caught<T>(r: Result<T>, fallback: T): (v: T)
    ensures r.Ok? ==> v == r.value
    ensures r.Raised? ==> v == fallback
  {
    match r
    case Ok(x) => x
    case Raised(_) => fallback
  }

  class DatabaseIntegration {
    const db: Database
    const animeService: AnimeService
    const downloadService: DownloadService

    ghost predicate Valid()
      reads db
    {
      && db.Valid()
      && animeService.db == db && animeService.Valid()
      && downloadService.db == db && downloadService.Valid()
    }

    constructor(db: Database)
      requires db.Valid()
      ensures this.db == db && Valid()
    {
      this.db := db;
      animeService := new AnimeService(db);
      downloadService := new DownloadService(db);
    }

    /** `save_anime_data`: the series id from the service; its exception is re-raised. */
    method SaveAnimeData(data: AnimeData, cover: Option<Bytes>) returns (r: Result<int>)
      requires Valid()
      modifies db`series, db`nextSeriesId, db`clock, db`seasons, db`nextSeasonId, db`episodes, db`nextEpisodeId
      ensures Valid()
      ensures ScraperDataSaved(old(db.series), old(db.nextSeriesId), old(CatalogOf(db)),
                               db.series, db.nextSeriesId, CatalogOf(db), data, cover, r)
    {
      r := animeService.SaveFromScraperData(data, cover);
    }

    /** `get_anime_by_url`: the series the URL finds, or None. */
    method GetAnimeByUrl(url: string) returns (r: Option<AnimeSeries>)
      requires Valid()
      ensures r == SeriesByUrl(db.series, db.nextSeriesId, Some(url))
    {
      r := animeService.GetAnimeByUrl(Some(url));
    }

    /** `find_all_animes`: every series, ordered by title. */
    method FindAllAnimes() returns (animes: seq<AnimeSeries>)
      requires Valid()
      ensures animes == VisibleAll(SeriesRowsByTitel(db.series, db.nextSeriesId))
    {
      animes := animeService.FindAllAnimes();
    }

    /** `get_episode_data`: the episode the URL finds, or None. */
    method GetEpisodeData(episodeUrl: string) returns (r: Option<Episode>)
      requires Valid()
      ensures r == EpisodeByUrl(db.episodes, db.nextEpisodeId, Some(episodeUrl))
    {
      r := animeService.GetEpisodeByUrl(Some(episodeUrl));
    }

    /**
     * `record_download`: -1 when the episode is not found. Otherwise the
     * service is called with the keywords episode_id, provider, sprache,
     * zieldatei and status, none of which `DownloadService.record_download`
     * accepts; the TypeError is caught and -1 returned. No row is written.
     */
    method RecordDownload(episodeUrl: string, provider: string, sprache: string, zieldatei: string) returns (r: int)
      requires Valid()
      ensures r == -1
    {
      var episode := GetEpisodeData(episodeUrl);
      if episode.None? {
        return -1;
      }
      // the call with unexpected keyword arguments raises TypeError
      r := Caught(Raised(TypeError), -1);
    }

    /** `update_download_status(id, status)`: the service's answer, with every optional argument None. */
    method UpdateDownloadStatus(downloadId: int, status: string, probe: FileProbe) returns (ok: bool)
      requires Valid()
      modifies db`downloads, db`nextDownloadId, db`clock
      ensures Valid()
      ensures StatusUpdated(ok, db.downloads, db.nextDownloadId) ==
              UpdateDownloadStatusSpec(old(db.downloads), old(db.nextDownloadId), old(db.clock), downloadId,
                                       StatusUpdate(status, None, None, None), probe)
    {
      ok := downloadService.UpdateDownloadStatus(downloadId, StatusUpdate(status, None, None, None), probe);
    }

    /**
     * `get_active_downloads` as written: building the first dictionary reads
     * `download.download_pfad`, which a `Download` does not have; the
     * AttributeError is caught and [] returned, so the list is always empty.
     */
    method GetActiveDownloadsAsWritten() returns (result: seq<DownloadSummary>)
      requires Valid()
      ensures result == []
      ensures |ActiveDownloads(db.downloads, db.nextDownloadId)| > 0 ==>
              |result| < |ActiveDownloads(db.downloads, db.nextDownloadId)|
    {
      var downloads := downloadService.GetActiveDownloads();
      result := [];
      if |downloads| > 0 {
        // `download.download_pfad` raises AttributeError
        result := Caught(Raised(AttributeError), []);
      }
    }

    /** `get_active_downloads` reading the local path for 'download_pfad': one dictionary per active download, in order. */
    method GetActiveDownloads() returns (result: seq<DownloadSummary>)
      requires Valid()
      ensures result == Summaries(ActiveDownloads(db.downloads, db.nextDownloadId))
      ensures |result| == |ActiveDownloads(db.downloads, db.nextDownloadId)|
    {
      var downloads := downloadService.GetActiveDownloads();
      result := [];
      var i := 0;
      while i < |downloads|
        invariant 0 <= i <= |downloads|
        invariant result == Summaries(downloads[..i])
      {
        assert downloads[..i + 1][..i] == downloads[..i];
        result := result + [Summary(downloads[i])];
        i := i + 1;
      }
      assert downloads[..i] == downloads;
    }
  }

  /** The module-level `_integration_instance` behind `get_integration`. */
  class IntegrationHolder {
    var instance: DatabaseIntegration?

    constructor()
      ensures instance == null
    {
      instance := null;
    }

    /** `get_integration`: builds the instance on the first call, then always returns that one. */
    method GetIntegration(db: Database) returns (integration: DatabaseIntegration)
      requires db.Valid()
      requires instance != null ==> instance.Valid()
      modifies this
      ensures old(instance) != null ==> integration == old(instance) && instance == old(instance)
      ensures old(instance) == null ==> fresh(integration) && integration.db == db && instance == integration
      ensures integration.Valid()
    {
      if instance == null {
        instance := new DatabaseIntegration(db);
      }
      integration := instance;
    }
  }
}
