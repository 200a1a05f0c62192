/**
 * The repositories of the catalogue database: one class per table, each
 * issuing single-table statements keyed by id, URL or parent id against a
 * shared `Database` that holds the four tables as maps from auto-increment key
 * to row, with one counter per table.
 *
 * The functions in the first half of this module are the meaning of each SQL
 * statement (what the table holds afterwards, which rows a `SELECT` returns);
 * the classes in the second half execute them step by step as the Python code
 * does and are proved against those functions.
 */
module Repositories {
  import opened Wrappers
  import opened Models
  import opened Query

  // ---------------------------------------------------------------------
  // BaseRepository._execute_update

  /**
   * The value `_execute_update` hands back: the id of the row an `INSERT`
   * created when there is one (`lastrowid` is nonzero), otherwise the number
   * of rows the statement matched.
   */
  function ExecuteUpdate(lastRowId: int, rowCount: int): (r: int)
    ensures lastRowId != 0 ==> r == lastRowId
    ensures lastRowId == 0 ==> r == rowCount
  {
    if lastRowId != 0 then lastRowId else rowCount
  }

  /** Rows a `DELETE ... WHERE <key> = id` removes: at most one. */
  function Matched<R>(t: map<int, R>, id: int): (n: int)
    ensures 0 <= n <= 1 && (n == 1 <==> id in t)
  {
    if id in t then 1 else 0
  }

  /**
   * The row count MySQL reports for `UPDATE anime_series SET cover_data = data
   * WHERE series_id = id`: without the FOUND_ROWS client flag it counts the
   * rows the statement changed, so a row already holding `data` counts 0.
   */
  function CoverChanged(t: map<int, AnimeSeries>, id: int, data: Bytes): (n: int)
    ensures 0 <= n <= 1 && (n == 1 <==> id in t && t[id].coverData != Some(data))
  {
    if id in t && t[id].coverData != Some(data) then 1 else 0
  }

  /** SQL `url_column = url`: a NULL on either side matches nothing. */
  predicate UrlMatches(url: Option<string>, column: Option<string>) {
    url.Some? && column == url
  }

  /** The table, its counter and the id returned after one `save`. */
  datatype Write<R> = Write(rows: map<int, R>, next: int, id: int)

  // ---------------------------------------------------------------------
  // anime_series

  /** Every row lies under a key in `[1, next)` and carries that key as its id. */
  ghost predicate SeriesKeyed(t: map<int, AnimeSeries>, next: int) {
    next >= 1 && forall k :: k in t ==> 1 <= k < next && t[k].seriesId == Some(k)
  }

  /** `save` inserts when the id is missing or not positive. */
  predicate IsNewId(id: Option<int>) {
    id.None? || id.value <= 0
  }

  /**
   * The row the `INSERT` of `AnimeRepository.save` stores under `key` at
   * server time `now`; the columns it does not name stay NULL.
   */
  function InsertedSeries(a: AnimeSeries, key: int, now: Timestamp): AnimeSeries {
    NewAnimeSeries.(seriesId := Some(key), aktualisiertAm := Some(now), titel := a.titel, originalTitel := a.originalTitel,
                    beschreibung := a.beschreibung, erscheinungsjahr := a.erscheinungsjahr,
                    status := a.status, studio := a.studio, regisseur := a.regisseur,
                    aniworldUrl := a.aniworldUrl, coverUrl := a.coverUrl, coverData := a.coverData)
  }

  /** The row after the `UPDATE` of `AnimeRepository.save`: nine columns from `a`, stamped `now`. */
  function UpdatedSeries(row: AnimeSeries, a: AnimeSeries, now: Timestamp): AnimeSeries {
    row.(aktualisiertAm := Some(now), titel := a.titel, originalTitel := a.originalTitel, beschreibung := a.beschreibung,
         erscheinungsjahr := a.erscheinungsjahr, status := a.status, studio := a.studio,
         regisseur := a.regisseur, aniworldUrl := a.aniworldUrl, coverUrl := a.coverUrl)
  }

  /** `AnimeRepository.save(a)` at server time `now`. */
  function SaveSeries(t: map<int, AnimeSeries>, next: int, now: Timestamp, a: AnimeSeries): Write<AnimeSeries> {
    if IsNewId(a.seriesId) then
      Write(t[next := InsertedSeries(a, next, now)], next + 1, ExecuteUpdate(next, 1))
    else
      var id := a.seriesId.value;
      Write(if id in t then t[id := UpdatedSeries(t[id], a, now)] else t, next, id)
  }

  /**
   * A series as the finders build it: cover_data, zielgruppe, fsk, bewertung
   * and erstellt_am are not among the selected columns.
   */
  function Visible(a: AnimeSeries): (v: AnimeSeries)
    ensures v.coverData == None && v.zielgruppe == None && v.fsk == None
    ensures v.bewertung == None && v.erstelltAm == None
    ensures v.seriesId == a.seriesId && v.titel == a.titel && v.aniworldUrl == a.aniworldUrl
    ensures v.coverUrl == a.coverUrl && v.status == a.status
  {
    a.(coverData := None, zielgruppe := None, fsk := None, bewertung := None, erstelltAm := None)
  }

  /** `AnimeRepository.find_by_id`. */
  function SeriesById(t: map<int, AnimeSeries>, id: int): (r: Option<AnimeSeries>)
    ensures r.Some? <==> id in t
  {
    if id in t then Some(Visible(t[id])) else None
  }

  predicate SeriesUrlIs(url: Option<string>, a: AnimeSeries) {
    UrlMatches(url, a.aniworldUrl)
  }

  /** The key `fetchone()` of `find_by_url` lands on: the first matching row. */
  function SeriesKeyByUrl(t: map<int, AnimeSeries>, next: int, url: Option<string>): (r: Option<int>)
    ensures r.Some? ==> r.value in t && UrlMatches(url, t[r.value].aniworldUrl)
    ensures r.Some? ==> forall k :: 1 <= k < r.value && k in t ==> !UrlMatches(url, t[k].aniworldUrl)
    ensures r.None? ==> forall k :: 1 <= k < next && k in t ==> !UrlMatches(url, t[k].aniworldUrl)
  {
    FirstKey(t, a => SeriesUrlIs(url, a), 1, next)
  }

  /** `AnimeRepository.find_by_url`. */
  function SeriesByUrl(t: map<int, AnimeSeries>, next: int, url: Option<string>): (r: Option<AnimeSeries>)
    ensures r.Some? ==> url.Some? && r.value.aniworldUrl == url && r.value.coverData == None
    ensures r.None? ==> forall k :: 1 <= k < next && k in t ==> !UrlMatches(url, t[k].aniworldUrl)
  {
    match SeriesKeyByUrl(t, next, url)
    case None => None
    case Some(k) => Some(Visible(t[k]))
  }

  predicate SeriesTitelLe(a: AnimeSeries, b: AnimeSeries) {
    OptStrLe(a.titel, b.titel)
  }

  predicate AnySeries(a: AnimeSeries) {
    true
  }

  /** The rows of `SELECT ... FROM anime_series ORDER BY titel`. */
  function SeriesRowsByTitel(t: map<int, AnimeSeries>, next: int): seq<AnimeSeries> {
    Select(t, next, AnySeries, SeriesTitelLe)
  }

  function VisibleAll(s: seq<AnimeSeries>): (r: seq<AnimeSeries>)
    ensures |r| == |s| && forall i :: 0 <= i < |s| ==> r[i] == Visible(s[i])
  {
    seq(|s|, i requires 0 <= i < |s| => Visible(s[i]))
  }

  /** The series find_all reads back are the stored rows through the column list, each of them. */
  lemma AllSeriesVisible(t: map<int, AnimeSeries>, next: int)
    requires SeriesKeyed(t, next)
    ensures forall a :: a in VisibleAll(SeriesRowsByTitel(t, next)) <==> exists k :: k in t && a == Visible(t[k])
  {
    var results := SeriesRowsByTitel(t, next);
    var animes := VisibleAll(results);
    forall a
      ensures a in animes <==> exists k :: k in t && a == Visible(t[k])
    {
      if a in animes {
        var j :| 0 <= j < |animes| && animes[j] == a;
        assert results[j] in results;
      }
      if exists k :: k in t && a == Visible(t[k]) {
        var k :| k in t && a == Visible(t[k]);
        assert t[k] in results;
        var j :| 0 <= j < |results| && results[j] == t[k];
        assert animes[j] == a;
      }
    }
  }

  lemma SeriesTitelOrder()
    ensures Total(SeriesTitelLe) && Transitive(SeriesTitelLe)
  {
    OptStrLeIsPreorder();
  }

  /** A save keeps every row under its own key and hands back a positive id. */
  lemma SaveSeriesKeepsKeyed(t: map<int, AnimeSeries>, next: int, now: Timestamp, a: AnimeSeries)
    requires SeriesKeyed(t, next)
    ensures SeriesKeyed(SaveSeries(t, next, now, a).rows, SaveSeries(t, next, now, a).next)
    ensures SaveSeries(t, next, now, a).id >= 1
  {
  }

  /**
   * The insert path allocates a key no row had, writes exactly that row and
   * returns its key; the update path returns the given id, matches at most
   * the row under it, keeps its cover_data and id, and touches no other row.
   */
  lemma SaveSeriesEffect(t: map<int, AnimeSeries>, next: int, now: Timestamp, a: AnimeSeries)
    requires SeriesKeyed(t, next)
    ensures var w := SaveSeries(t, next, now, a);
      IsNewId(a.seriesId) ==>
        w.id == next && w.id !in t && w.next == next + 1 && w.rows.Keys == t.Keys + {w.id}
    ensures var w := SaveSeries(t, next, now, a);
      !IsNewId(a.seriesId) ==>
        w.id == a.seriesId.value && w.next == next && w.rows.Keys == t.Keys
        && (w.id in t ==> w.rows[w.id].coverData == t[w.id].coverData
                          && w.rows[w.id].seriesId == t[w.id].seriesId)
    ensures var w := SaveSeries(t, next, now, a);
      forall k :: k in t && k != w.id ==> w.rows[k] == t[k]
  {
  }

  /**
   * Round trip by id: after a save that inserts, or that updates an existing
   * row, `find_by_id` of the returned id gives back the saved fields (with
   * the id written in) minus the columns the finder does not select.
   */
  lemma {:induction false} SaveSeriesThenFindById(t: map<int, AnimeSeries>, next: int, now: Timestamp, a: AnimeSeries)
    requires SeriesKeyed(t, next)
    requires IsNewId(a.seriesId) || a.seriesId.value in t
    ensures var w := SaveSeries(t, next, now, a);
      SeriesById(w.rows, w.id) == Some(Visible(a.(seriesId := Some(w.id), aktualisiertAm := Some(now))))
  {
    var w := SaveSeries(t, next, now, a);
    if IsNewId(a.seriesId) {
      assert w.rows[w.id] == InsertedSeries(a, next, now);
    } else {
      assert w.rows[w.id] == UpdatedSeries(t[w.id], a, now);
      assert t[w.id].seriesId == Some(w.id);
    }
  }

  /**
   * Round trip by URL: when no row carried the URL before, the series just
   * inserted is the one `find_by_url` returns.
   */
  lemma SaveNewSeriesThenFindByUrl(t: map<int, AnimeSeries>, next: int, now: Timestamp, a: AnimeSeries)
    requires SeriesKeyed(t, next)
    requires IsNewId(a.seriesId) && a.aniworldUrl.Some?
    requires SeriesByUrl(t, next, a.aniworldUrl).None?
    ensures var w := SaveSeries(t, next, now, a);
      SeriesByUrl(w.rows, w.next, a.aniworldUrl) == Some(Visible(w.rows[w.id]))
      && SeriesKeyByUrl(w.rows, w.next, a.aniworldUrl) == Some(w.id)
  {
    var w := SaveSeries(t, next, now, a);
    var url := a.aniworldUrl;
    assert w.rows[next].aniworldUrl == url;
  }

  // ---------------------------------------------------------------------
  // seasons

  ghost predicate SeasonsKeyed(t: map<int, Season>, next: int) {
    next >= 1 && forall k :: k in t ==> 1 <= k < next && t[k].seasonId == Some(k)
  }

  /** `SeasonRepository.save(s)`: a truthy id updates every column, else insert. */
  function SaveSeason(t: map<int, Season>, next: int, s: Season): Write<Season> {
    if TruthyInt(s.seasonId) then
      var id := s.seasonId.value;
      Write(if id in t then t[id := s] else t, next, id)
    else
      Write(t[next := s.(seasonId := Some(next))], next + 1, ExecuteUpdate(next, 1))
  }

  function SeasonById(t: map<int, Season>, id: int): (r: Option<Season>)
    ensures r.Some? <==> id in t
  {
    if id in t then Some(t[id]) else None
  }

  predicate SeasonUrlIs(url: Option<string>, s: Season) {
    UrlMatches(url, s.aniworldUrl)
  }

  /** `SeasonRepository.find_by_url`: the first row carrying the URL. */
  function SeasonByUrl(t: map<int, Season>, next: int, url: Option<string>): (r: Option<Season>)
    ensures r.Some? ==> exists k :: 1 <= k < next && k in t && t[k] == r.value && UrlMatches(url, r.value.aniworldUrl)
    ensures r.None? ==> forall k :: 1 <= k < next && k in t ==> !UrlMatches(url, t[k].aniworldUrl)
  {
    match FirstKey(t, s => SeasonUrlIs(url, s), 1, next)
    case None => None
    case Some(k) => Some(t[k])
  }

  predicate SeasonNumberLe(a: Season, b: Season) {
    a.staffelNummer <= b.staffelNummer
  }

  lemma SeasonNumberOrder()
    ensures Total(SeasonNumberLe) && Transitive(SeasonNumberLe)
  {
  }

  /** `SELECT * FROM seasons WHERE series_id = %s ORDER BY staffel_nummer`. */
  function SeasonsOfSeries(t: map<int, Season>, next: int, seriesId: int): (r: seq<Season>)
    ensures forall s :: s in r <==> (exists k :: 1 <= k < next && k in t && t[k] == s) && s.seriesId == seriesId
    ensures SortedBy(r, SeasonNumberLe)
  {
    SeasonNumberOrder();
    SelectSorted(t, next, (s: Season) => s.seriesId == seriesId, SeasonNumberLe);
    Select(t, next, (s: Season) => s.seriesId == seriesId, SeasonNumberLe)
  }

  lemma SaveSeasonKeepsKeyed(t: map<int, Season>, next: int, s: Season)
    requires SeasonsKeyed(t, next)
    ensures SeasonsKeyed(SaveSeason(t, next, s).rows, SaveSeason(t, next, s).next)
  {
  }

  /**
   * A season without a truthy id is inserted under a fresh key that is also
   * the returned id; one with a truthy id returns that id, and every other
   * row is left as it was.
   */
  lemma SaveSeasonEffect(t: map<int, Season>, next: int, s: Season)
    requires SeasonsKeyed(t, next)
    ensures var w := SaveSeason(t, next, s);
      !TruthyInt(s.seasonId) ==>
        w.id == next && w.id !in t && w.next == next + 1 && w.rows.Keys == t.Keys + {w.id}
        && w.rows[w.id] == s.(seasonId := Some(w.id))
    ensures var w := SaveSeason(t, next, s);
      TruthyInt(s.seasonId) ==>
        w.id == s.seasonId.value && w.next == next && w.rows.Keys == t.Keys
        && (w.id in t ==> w.rows[w.id] == s)
    ensures var w := SaveSeason(t, next, s);
      forall k :: k in t && k != w.id ==> w.rows[k] == t[k]
  {
  }

  // ---------------------------------------------------------------------
  // episoden

  ghost predicate EpisodesKeyed(t: map<int, Episode>, next: int) {
    next >= 1 && forall k :: k in t ==> 1 <= k < next && t[k].episodeId == Some(k)
  }

  /** `EpisodeRepository.save(e)`: insert when the id is missing or not positive. */
  function SaveEpisode(t: map<int, Episode>, next: int, e: Episode): Write<Episode> {
    if IsNewId(e.episodeId) then
      Write(t[next := e.(episodeId := Some(next))], next + 1, ExecuteUpdate(next, 1))
    else
      var id := e.episodeId.value;
      Write(if id in t then t[id := e] else t, next, id)
  }

  function EpisodeById(t: map<int, Episode>, id: int): (r: Option<Episode>)
    ensures r.Some? <==> id in t
  {
    if id in t then Some(t[id]) else None
  }

  predicate EpisodeUrlIs(url: Option<string>, e: Episode) {
    UrlMatches(url, e.aniworldUrl)
  }

  /** `EpisodeRepository.find_by_url`: the first row carrying the URL. */
  function EpisodeByUrl(t: map<int, Episode>, next: int, url: Option<string>): (r: Option<Episode>)
    ensures r.Some? ==> exists k :: 1 <= k < next && k in t && t[k] == r.value && UrlMatches(url, r.value.aniworldUrl)
    ensures r.None? ==> forall k :: 1 <= k < next && k in t ==> !UrlMatches(url, t[k].aniworldUrl)
  {
    match FirstKey(t, e => EpisodeUrlIs(url, e), 1, next)
    case None => None
    case Some(k) => Some(t[k])
  }

  predicate EpisodeNumberLe(a: Episode, b: Episode) {
    a.episodeNummer <= b.episodeNummer
  }

  lemma EpisodeNumberOrder()
    ensures Total(EpisodeNumberLe) && Transitive(EpisodeNumberLe)
  {
  }

  /** `SELECT ... FROM episoden WHERE season_id = %s ORDER BY episode_nummer`. */
  function EpisodesOfSeason(t: map<int, Episode>, next: int, seasonId: int): (r: seq<Episode>)
    ensures forall e :: e in r <==> (exists k :: 1 <= k < next && k in t && t[k] == e) && e.seasonId == seasonId
    ensures SortedBy(r, EpisodeNumberLe)
  {
    EpisodeNumberOrder();
    SelectSorted(t, next, (e: Episode) => e.seasonId == seasonId, EpisodeNumberLe);
    Select(t, next, (e: Episode) => e.seasonId == seasonId, EpisodeNumberLe)
  }

  lemma SaveEpisodeKeepsKeyed(t: map<int, Episode>, next: int, e: Episode)
    requires EpisodesKeyed(t, next)
    ensures EpisodesKeyed(SaveEpisode(t, next, e).rows, SaveEpisode(t, next, e).next)
    ensures SaveEpisode(t, next, e).id >= 1
  {
  }

  /**
   * The insert path allocates a fresh key and stores the episode under it;
   * the update path returns the given id and overwrites every column of the
   * row under it, if any; no other row changes.
   */
  lemma SaveEpisodeEffect(t: map<int, Episode>, next: int, e: Episode)
    requires EpisodesKeyed(t, next)
    ensures var w := SaveEpisode(t, next, e);
      IsNewId(e.episodeId) ==>
        w.id == next && w.id !in t && w.next == next + 1 && w.rows.Keys == t.Keys + {w.id}
        && w.rows[w.id] == e.(episodeId := Some(w.id))
    ensures var w := SaveEpisode(t, next, e);
      !IsNewId(e.episodeId) ==>
        w.id == e.episodeId.value && w.next == next && w.rows.Keys == t.Keys
        && (w.id in t ==> w.rows[w.id] == e)
    ensures var w := SaveEpisode(t, next, e);
      forall k :: k in t && k != w.id ==> w.rows[k] == t[k]
  {
  }

  /** Round trip: what an inserting or updating save wrote is what `find_by_id` reads. */
  lemma SaveEpisodeThenFindById(t: map<int, Episode>, next: int, e: Episode)
    requires EpisodesKeyed(t, next)
    requires IsNewId(e.episodeId) || e.episodeId.value in t
    ensures var w := SaveEpisode(t, next, e);
      EpisodeById(w.rows, w.id) == Some(e.(episodeId := Some(w.id)))
  {
  }

  // ---------------------------------------------------------------------
  // downloads

  /**
   * Keyed rows, each stamped with a `download_datum` earlier than `clock`;
   * the insert leaves the date to the column default, taken to be the
   * server's time.
   */
  ghost predicate DownloadsKeyed(t: map<int, Download>, next: int, clock: Timestamp) {
    next >= 1 && forall k :: k in t ==>
      1 <= k < next && t[k].downloadId == Some(k)
      && t[k].downloadDatum.Some? && t[k].downloadDatum.value < clock
  }

  /**
   * `DownloadRepository.save(d)`. The `INSERT` names no download_datum
   * column, so the row gets the column default, taken to be the server's
   * current time `now`; the `UPDATE`
   * writes every column except download_datum.
   */
  function SaveDownload(t: map<int, Download>, next: int, now: Timestamp, d: Download): Write<Download> {
    if TruthyInt(d.downloadId) then
      var id := d.downloadId.value;
      Write(if id in t then t[id := d.(downloadDatum := t[id].downloadDatum)] else t, next, id)
    else
      Write(t[next := d.(downloadId := Some(next), downloadDatum := Some(now))], next + 1, ExecuteUpdate(next, 1))
  }

  function DownloadById(t: map<int, Download>, id: int): (r: Option<Download>)
    ensures r.Some? <==> id in t
  {
    if id in t then Some(t[id]) else None
  }

  /** `ORDER BY download_datum`: NULL first, then ascending. */
  predicate DatumAscLe(a: Download, b: Download) {
    a.downloadDatum.None? || (b.downloadDatum.Some? && a.downloadDatum.value <= b.downloadDatum.value)
  }

  /** `ORDER BY download_datum DESC`: descending, NULL last. */
  predicate DatumDescLe(a: Download, b: Download) {
    DatumAscLe(b, a)
  }

  lemma DatumOrders()
    ensures Total(DatumAscLe) && Transitive(DatumAscLe)
    ensures Total(DatumDescLe) && Transitive(DatumDescLe)
  {
  }

  /** `SELECT * FROM downloads WHERE episode_id = %s ORDER BY download_datum DESC`. */
  function DownloadsOfEpisode(t: map<int, Download>, next: int, episodeId: int): (r: seq<Download>)
    ensures forall d :: d in r <==> (exists k :: 1 <= k < next && k in t && t[k] == d) && d.episodeId == episodeId
    ensures SortedBy(r, DatumDescLe)
  {
    DatumOrders();
    SelectSorted(t, next, (d: Download) => d.episodeId == episodeId, DatumDescLe);
    Select(t, next, (d: Download) => d.episodeId == episodeId, DatumDescLe)
  }

  /** The statuses `find_active_downloads` selects. */
  predicate IsActive(d: Download) {
    d.status == "geplant" || d.status == "läuft"
  }

  /** `SELECT * FROM downloads WHERE status IN ('geplant', 'läuft') ORDER BY download_datum`. */
  function ActiveDownloads(t: map<int, Download>, next: int): (r: seq<Download>)
    ensures forall d :: d in r <==> (exists k :: 1 <= k < next && k in t && t[k] == d) && IsActive(d)
    ensures SortedBy(r, DatumAscLe)
  {
    DatumOrders();
    SelectSorted(t, next, IsActive, DatumAscLe);
    Select(t, next, IsActive, DatumAscLe)
  }

  /** Every stored download of the episode is listed. */
  lemma DownloadsOfEpisodeComplete(t: map<int, Download>, next: int, clock: Timestamp, episodeId: int)
    requires DownloadsKeyed(t, next, clock)
    ensures forall d :: d in t.Values && d.episodeId == episodeId ==> d in DownloadsOfEpisode(t, next, episodeId)
  {
    forall d | d in t.Values && d.episodeId == episodeId
      ensures d in DownloadsOfEpisode(t, next, episodeId)
    {
      var k := KeyOf(t, d);
      assert 1 <= k < next;
    }
  }

  /** Every stored active download is listed. */
  lemma ActiveDownloadsComplete(t: map<int, Download>, next: int, clock: Timestamp)
    requires DownloadsKeyed(t, next, clock)
    ensures forall d :: d in t.Values && IsActive(d) ==> d in ActiveDownloads(t, next)
  {
    forall d | d in t.Values && IsActive(d)
      ensures d in ActiveDownloads(t, next)
    {
      var k := KeyOf(t, d);
      assert 1 <= k < next;
    }
  }

  lemma SaveDownloadKeepsKeyed(t: map<int, Download>, next: int, clock: Timestamp, d: Download)
    requires DownloadsKeyed(t, next, clock)
    ensures DownloadsKeyed(SaveDownload(t, next, clock, d).rows, SaveDownload(t, next, clock, d).next, clock + 1)
  {
  }

  /**
   * A download without a truthy id becomes a new row stamped `now` under a
   * fresh key, which is returned; one with a truthy id returns that id and
   * rewrites every column of its row except download_datum.
   */
  lemma SaveDownloadEffect(t: map<int, Download>, next: int, clock: Timestamp, d: Download)
    requires DownloadsKeyed(t, next, clock)
    ensures var w := SaveDownload(t, next, clock, d);
      !TruthyInt(d.downloadId) ==>
        w.id == next && w.id !in t && w.next == next + 1 && w.rows.Keys == t.Keys + {w.id}
        && w.rows[w.id] == d.(downloadId := Some(w.id), downloadDatum := Some(clock))
    ensures var w := SaveDownload(t, next, clock, d);
      TruthyInt(d.downloadId) ==>
        w.id == d.downloadId.value && w.next == next && w.rows.Keys == t.Keys
        && (w.id in t ==> w.rows[w.id] == d.(downloadDatum := t[w.id].downloadDatum))
    ensures var w := SaveDownload(t, next, clock, d);
      forall k :: k in t && k != w.id ==> w.rows[k] == t[k]
  {
  }

  // ---------------------------------------------------------------------
  // cover data and deletes

  /** `save_cover_data`: the table afterwards; only the matched row's cover changes. */
  function SetCover(t: map<int, AnimeSeries>, id: int, data: Bytes): (r: map<int, AnimeSeries>)
    ensures r.Keys == t.Keys
    ensures forall k :: k in t && k != id ==> r[k] == t[k]
    ensures id in t ==> r[id].coverData == Some(data) && Visible(r[id]) == Visible(t[id])
  {
    if id in t then t[id := t[id].(coverData := Some(data))] else t
  }

  /** cover_data is never read back: storing a cover changes no finder result. */
  lemma SetCoverInvisible(t: map<int, AnimeSeries>, next: int, id: int, data: Bytes, k: int, url: Option<string>)
    ensures SeriesById(SetCover(t, id, data), k) == SeriesById(t, k)
    ensures SeriesByUrl(SetCover(t, id, data), next, url) == SeriesByUrl(t, next, url)
  {
    var t' := SetCover(t, id, data);
    assert forall j :: j in t' <==> j in t;
    assert forall j :: j in t ==> Visible(t'[j]) == Visible(t[j]) && t'[j].aniworldUrl == t[j].aniworldUrl;
    assert SeriesKeyByUrl(t', next, url) == SeriesKeyByUrl(t, next, url) by {
      FirstKeySameMatches(t', t, url, 1, next);
    }
  }

  /** `find_by_url` only looks at keys and URLs: rewrites that keep both leave its answer alone. */
  lemma SeriesKeyByUrlSameUrls(t': map<int, AnimeSeries>, t: map<int, AnimeSeries>, next: int, url: Option<string>)
    requires t'.Keys == t.Keys
    requires forall j :: j in t ==> t'[j].aniworldUrl == t[j].aniworldUrl
    ensures SeriesKeyByUrl(t', next, url) == SeriesKeyByUrl(t, next, url)
  {
    FirstKeySameMatches(t', t, url, 1, next);
  }

  lemma {:induction false} FirstKeySameMatches(t': map<int, AnimeSeries>, t: map<int, AnimeSeries>, url: Option<string>, lo: int, hi: int)
    requires forall j :: j in t' <==> j in t
    requires forall j :: j in t ==> t'[j].aniworldUrl == t[j].aniworldUrl
    ensures FirstKey(t', a => SeriesUrlIs(url, a), lo, hi) == FirstKey(t, a => SeriesUrlIs(url, a), lo, hi)
    decreases hi - lo
  {
    if lo < hi {
      FirstKeySameMatches(t', t, url, lo + 1, hi);
    }
  }

  // ---------------------------------------------------------------------
  // The database and the repositories

  /** The four tables and their auto-increment counters, shared by every repository. */
  class Database {
    var series: map<int, AnimeSeries>
    var nextSeriesId: int
    var seasons: map<int, Season>
    var nextSeasonId: int
    var episodes: map<int, Episode>
    var nextEpisodeId: int
    var downloads: map<int, Download>
    var nextDownloadId: int
    /** The server clock behind `NOW()` and column defaults; every stamped write advances it. */
    var clock: Timestamp

    ghost predicate Valid()
      reads this
    {
      && SeriesKeyed(series, nextSeriesId)
      && SeasonsKeyed(seasons, nextSeasonId)
      && EpisodesKeyed(episodes, nextEpisodeId)
      && DownloadsKeyed(downloads, nextDownloadId, clock)
    }

    constructor()
      ensures Valid()
      ensures series == map[] && seasons == map[] && episodes == map[] && downloads == map[]
    {
      series, seasons, episodes, downloads := map[], map[], map[], map[];
      nextSeriesId, nextSeasonId, nextEpisodeId, nextDownloadId := 1, 1, 1, 1;
      clock := 0;
    }
  }

  class AnimeRepository {
    const db: Database

    constructor(db: Database)
      ensures this.db == db
    {
      this.db := db;
    }

    /**
     * Inserts a series whose id is missing or not positive, else updates the
     * row under its id; returns the id and the argument object with that id
     * written back into it.
     */
    method Save(anime: AnimeSeries) returns (id: int, saved: AnimeSeries)
      requires db.Valid()
      modifies db`series, db`nextSeriesId, db`clock
      ensures db.Valid() && db.clock == old(db.clock) + 1
      ensures Write(db.series, db.nextSeriesId, id) == SaveSeries(old(db.series), old(db.nextSeriesId), old(db.clock), anime)
      ensures saved == anime.(seriesId := Some(id))
      ensures IsNewId(anime.seriesId) ==> id == old(db.nextSeriesId) && id !in old(db.series)
      ensures !IsNewId(anime.seriesId) ==> anime.seriesId == Some(id)
    {
      var now := db.clock;
      if anime.seriesId.None? || anime.seriesId.value <= 0 {
        var key := db.nextSeriesId;
        db.series := db.series[key := InsertedSeries(anime, key, now)];
        db.nextSeriesId := key + 1;
        id := ExecuteUpdate(key, 1);
      } else {
        id := anime.seriesId.value;
        if id in db.series {
          db.series := db.series[id := UpdatedSeries(db.series[id], anime, now)];
        }
      }
      saved := anime.(seriesId := Some(id));
      SaveSeriesKeepsKeyed(old(db.series), old(db.nextSeriesId), now, anime);
      db.clock := now + 1;
    }

    method FindById(seriesId: int) returns (r: Option<AnimeSeries>)
      ensures r == SeriesById(db.series, seriesId)
      ensures r.Some? ==> r.value == Visible(db.series[seriesId])
    {
      if seriesId in db.series {
        r := Some(Visible(db.series[seriesId]));
      } else {
        r := None;
      }
    }

    /** The first series (by id) whose URL equals `url`; NULL finds nothing. */
    method FindByUrl(url: Option<string>) returns (r: Option<AnimeSeries>)
      requires db.Valid()
      ensures r == SeriesByUrl(db.series, db.nextSeriesId, url)
      ensures r.None? <==> forall k :: k in db.series ==> !UrlMatches(url, db.series[k].aniworldUrl)
    {
      var key := SeriesKeyByUrl(db.series, db.nextSeriesId, url);
      r := if key.Some? then Some(Visible(db.series[key.value])) else None;
    }

    /** Every series, ordered by title, as the finder builds it. */
    method FindAll() returns (animes: seq<AnimeSeries>)
      requires db.Valid()
      ensures animes == VisibleAll(SeriesRowsByTitel(db.series, db.nextSeriesId))
      ensures forall a :: a in animes <==> exists k :: k in db.series && a == Visible(db.series[k])
      ensures SortedBy(animes, SeriesTitelLe)
    {
      var results := SeriesRowsByTitel(db.series, db.nextSeriesId);
      animes := [];
      var i := 0;
      while i < |results|
        invariant 0 <= i <= |results|
        invariant animes == VisibleAll(results[..i])
      {
        animes := animes + [Visible(results[i])];
        i := i + 1;
      }
      assert results[..i] == results;
      SeriesTitelOrder();
      SelectSorted(db.series, db.nextSeriesId, AnySeries, SeriesTitelLe);
      AllSeriesVisible(db.series, db.nextSeriesId);
    }

    /** Stores the cover; true iff a row with that id held other cover bytes. */
    method SaveCoverData(seriesId: int, coverData: Bytes) returns (ok: bool)
      requires db.Valid()
      modifies db`series
      ensures db.Valid()
      ensures db.series == SetCover(old(db.series), seriesId, coverData)
      ensures ok <==> seriesId in old(db.series) && old(db.series)[seriesId].coverData != Some(coverData)
    {
      var matched := CoverChanged(db.series, seriesId, coverData);
      if seriesId in db.series {
        db.series := db.series[seriesId := db.series[seriesId].(coverData := Some(coverData))];
      }
      ok := ExecuteUpdate(0, matched) > 0;
    }

    /** Removes the row; true iff it existed. */
    method Delete(seriesId: int) returns (ok: bool)
      requires db.Valid()
      modifies db`series
      ensures db.Valid()
      ensures db.series == old(db.series) - {seriesId}
      ensures ok <==> seriesId in old(db.series)
    {
      var matched := Matched(db.series, seriesId);
      db.series := db.series - {seriesId};
      ok := ExecuteUpdate(0, matched) > 0;
    }
  }

  class SeasonRepository {
    const db: Database

    constructor(db: Database)
      ensures this.db == db
    {
      this.db := db;
    }

    /** Updates when the id is truthy, else inserts; returns the id. */
    method Save(season: Season) returns (id: int)
      requires db.Valid()
      modifies db`seasons, db`nextSeasonId
      ensures db.Valid()
      ensures Write(db.seasons, db.nextSeasonId, id) == SaveSeason(old(db.seasons), old(db.nextSeasonId), season)
      ensures !TruthyInt(season.seasonId) ==> id == old(db.nextSeasonId) && id !in old(db.seasons)
      ensures TruthyInt(season.seasonId) ==> season.seasonId == Some(id)
    {
      if season.seasonId.Some? && season.seasonId.value != 0 {
        id := season.seasonId.value;
        if id in db.seasons {
          db.seasons := db.seasons[id := season];
        }
      } else {
        var key := db.nextSeasonId;
        db.seasons := db.seasons[key := season.(seasonId := Some(key))];
        db.nextSeasonId := key + 1;
        id := ExecuteUpdate(key, 1);
      }
      SaveSeasonKeepsKeyed(old(db.seasons), old(db.nextSeasonId), season);
    }

    method FindById(seasonId: int) returns (r: Option<Season>)
      ensures r == SeasonById(db.seasons, seasonId)
      ensures r.Some? ==> r.value == db.seasons[seasonId]
    {
      r := if seasonId in db.seasons then Some(db.seasons[seasonId]) else None;
    }

    /** The seasons of one series, ordered by season number. */
    method FindBySeriesId(seriesId: int) returns (seasonList: seq<Season>)
      requires db.Valid()
      ensures seasonList == SeasonsOfSeries(db.seasons, db.nextSeasonId, seriesId)
      ensures forall s :: s in seasonList <==> s in db.seasons.Values && s.seriesId == seriesId
      ensures SortedBy(seasonList, SeasonNumberLe)
    {
      var results := SeasonsOfSeries(db.seasons, db.nextSeasonId, seriesId);
      seasonList := [];
      var i := 0;
      while i < |results|
        invariant 0 <= i <= |results|
        invariant seasonList == results[..i]
      {
        seasonList := seasonList + [results[i]];
        i := i + 1;
      }
      assert results[..i] == results;
    }

    /** Delegates to `FindBySeriesId`. */
    method FindByAnimeId(seriesId: int) returns (seasonList: seq<Season>)
      requires db.Valid()
      ensures seasonList == SeasonsOfSeries(db.seasons, db.nextSeasonId, seriesId)
    {
      seasonList := FindBySeriesId(seriesId);
    }

    method FindByUrl(url: Option<string>) returns (r: Option<Season>)
      requires db.Valid()
      ensures r == SeasonByUrl(db.seasons, db.nextSeasonId, url)
      ensures r.None? <==> forall s :: s in db.seasons.Values ==> !UrlMatches(url, s.aniworldUrl)
    {
      r := SeasonByUrl(db.seasons, db.nextSeasonId, url);
    }
  }

  class EpisodeRepository {
    const db: Database

    constructor(db: Database)
      ensures this.db == db
    {
      this.db := db;
    }

    /** Inserts when the id is missing or not positive, else updates; returns the id and the object with it written back. */
    method Save(episode: Episode) returns (id: int, saved: Episode)
      requires db.Valid()
      modifies db`episodes, db`nextEpisodeId
      ensures db.Valid()
      ensures Write(db.episodes, db.nextEpisodeId, id) == SaveEpisode(old(db.episodes), old(db.nextEpisodeId), episode)
      ensures saved == episode.(episodeId := Some(id))
      ensures IsNewId(episode.episodeId) ==> id == old(db.nextEpisodeId) && id !in old(db.episodes)
      ensures !IsNewId(episode.episodeId) ==> episode.episodeId == Some(id)
    {
      if episode.episodeId.None? || episode.episodeId.value <= 0 {
        var key := db.nextEpisodeId;
        db.episodes := db.episodes[key := episode.(episodeId := Some(key))];
        db.nextEpisodeId := key + 1;
        id := ExecuteUpdate(key, 1);
      } else {
        id := episode.episodeId.value;
        if id in db.episodes {
          db.episodes := db.episodes[id := episode];
        }
      }
      saved := episode.(episodeId := Some(id));
      SaveEpisodeKeepsKeyed(old(db.episodes), old(db.nextEpisodeId), episode);
    }

    method FindById(episodeId: int) returns (r: Option<Episode>)
      ensures r == EpisodeById(db.episodes, episodeId)
      ensures r.Some? ==> r.value == db.episodes[episodeId]
    {
      r := if episodeId in db.episodes then Some(db.episodes[episodeId]) else None;
    }

    method FindByUrl(url: Option<string>) returns (r: Option<Episode>)
      requires db.Valid()
      ensures r == EpisodeByUrl(db.episodes, db.nextEpisodeId, url)
      ensures r.None? <==> forall e :: e in db.episodes.Values ==> !UrlMatches(url, e.aniworldUrl)
    {
      r := EpisodeByUrl(db.episodes, db.nextEpisodeId, url);
    }

    /** The episodes of one season, ordered by episode number. */
    method FindBySeasonId(seasonId: int) returns (episodes: seq<Episode>)
      requires db.Valid()
      ensures episodes == EpisodesOfSeason(db.episodes, db.nextEpisodeId, seasonId)
      ensures forall e :: e in episodes <==> e in db.episodes.Values && e.seasonId == seasonId
      ensures SortedBy(episodes, EpisodeNumberLe)
    {
      var results := EpisodesOfSeason(db.episodes, db.nextEpisodeId, seasonId);
      episodes := [];
      var i := 0;
      while i < |results|
        invariant 0 <= i <= |results|
        invariant episodes == results[..i]
      {
        episodes := episodes + [results[i]];
        i := i + 1;
      }
      assert results[..i] == results;
    }

    /** Removes the row; true iff it existed. */
    method Delete(episodeId: int) returns (ok: bool)
      requires db.Valid()
      modifies db`episodes
      ensures db.Valid()
      ensures db.episodes == old(db.episodes) - {episodeId}
      ensures ok <==> episodeId in old(db.episodes)
    {
      var matched := Matched(db.episodes, episodeId);
      db.episodes := db.episodes - {episodeId};
      ok := ExecuteUpdate(0, matched) > 0;
    }
  }

  class DownloadRepository {
    const db: Database

    constructor(db: Database)
      ensures this.db == db
    {
      this.db := db;
    }

    /** Updates when the id is truthy, else inserts a row stamped with the server time; returns the id. */
    method Save(download: Download) returns (id: int)
      requires db.Valid()
      modifies db`downloads, db`nextDownloadId, db`clock
      ensures db.Valid() && db.clock == old(db.clock) + 1
      ensures Write(db.downloads, db.nextDownloadId, id) == SaveDownload(old(db.downloads), old(db.nextDownloadId), old(db.clock), download)
      ensures !TruthyInt(download.downloadId) ==> id == old(db.nextDownloadId) && id !in old(db.downloads)
      ensures TruthyInt(download.downloadId) ==> download.downloadId == Some(id)
    {
      var now := db.clock;
      if download.downloadId.Some? && download.downloadId.value != 0 {
        id := download.downloadId.value;
        if id in db.downloads {
          db.downloads := db.downloads[id := download.(downloadDatum := db.downloads[id].downloadDatum)];
        }
      } else {
        var key := db.nextDownloadId;
        db.downloads := db.downloads[key := download.(downloadId := Some(key), downloadDatum := Some(now))];
        db.nextDownloadId := key + 1;
        id := ExecuteUpdate(key, 1);
      }
      SaveDownloadKeepsKeyed(old(db.downloads), old(db.nextDownloadId), now, download);
      db.clock := now + 1;
    }

    method FindById(downloadId: int) returns (r: Option<Download>)
      ensures r == DownloadById(db.downloads, downloadId)
      ensures r.Some? ==> r.value == db.downloads[downloadId]
    {
      r := if downloadId in db.downloads then Some(db.downloads[downloadId]) else None;
    }

    /** The downloads of one episode, newest first. */
    method FindByEpisodeId(episodeId: int) returns (downloadList: seq<Download>)
      requires db.Valid()
      ensures downloadList == DownloadsOfEpisode(db.downloads, db.nextDownloadId, episodeId)
      ensures forall d :: d in downloadList <==> d in db.downloads.Values && d.episodeId == episodeId
      ensures SortedBy(downloadList, DatumDescLe)
    {
      var results := DownloadsOfEpisode(db.downloads, db.nextDownloadId, episodeId);
      downloadList := [];
      var i := 0;
      while i < |results|
        invariant 0 <= i <= |results|
        invariant downloadList == results[..i]
      {
        downloadList := downloadList + [results[i]];
        i := i + 1;
      }
      assert results[..i] == results;
      DownloadsOfEpisodeComplete(db.downloads, db.nextDownloadId, db.clock, episodeId);
    }

    /** The downloads whose status is 'geplant' or 'läuft', oldest first. */
    method FindActiveDownloads() returns (downloadList: seq<Download>)
      requires db.Valid()
      ensures downloadList == ActiveDownloads(db.downloads, db.nextDownloadId)
      ensures forall d :: d in downloadList <==> d in db.downloads.Values && IsActive(d)
      ensures SortedBy(downloadList, DatumAscLe)
    {
      var results := ActiveDownloads(db.downloads, db.nextDownloadId);
      downloadList := [];
      var i := 0;
      while i < |results|
        invariant 0 <= i <= |results|
        invariant downloadList == results[..i]
      {
        downloadList := downloadList + [results[i]];
        i := i + 1;
      }
      assert results[..i] == results;
      ActiveDownloadsComplete(db.downloads, db.nextDownloadId, db.clock);
    }
  }
}
