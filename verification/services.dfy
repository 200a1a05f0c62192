/**
 * The business services on top of the repositories: name-to-id lookups,
 * get-or-create on the natural keys of series (URL), seasons (series id and
 * number) and episodes (season id and number), ingestion of the scraper's
 * dictionary, and the recording of downloads.
 */
module Services {
  import opened Wrappers
  import opened Models
  import opened Query
  import opened Repositories

  // ---------------------------------------------------------------------
  // LookupService

  /** `LookupService.get_provider_id`: the fixed provider table, 0 for an unknown name. */
  function ProviderId(name: string): (id: int)
    ensures 0 <= id <= 6
    ensures id == 0 <==> name !in {"VOE", "Vidoza", "Doodstream", "Vidmoly", "Streamtape", "SpeedFiles"}
  {
    match name
    case "VOE" => 2
    case "Vidoza" => 1
    case "Doodstream" => 3
    case "Vidmoly" => 4
    case "Streamtape" => 5
    case "SpeedFiles" => 6
    case _ => 0
  }

  /** `LookupService.get_language_id`: the fixed language table, 0 for an unknown name. */
  function LanguageId(name: string): (id: int)
    ensures 0 <= id <= 3
    ensures id == 0 <==> name !in {"German Dub", "German Sub", "English Sub"}
  {
    match name
    case "German Dub" => 1
    case "German Sub" => 2
    case "English Sub" => 3
    case _ => 0
  }

  /** Distinct known names get distinct ids: each lookup is a one-to-one table. */
  lemma LookupsInjective(a: string, b: string)
    ensures ProviderId(a) != 0 && ProviderId(a) == ProviderId(b) ==> a == b
    ensures LanguageId(a) != 0 && LanguageId(a) == LanguageId(b) ==> a == b
  {
  }

  // ---------------------------------------------------------------------
  // The scraper's dictionary

  /**
   * One key of a Python dict: missing, or present with a value that may be
   * `None`. `dict.get(key, default)` yields the default only when the key is
   * missing; a key present with `None` yields `None`.
   */
  datatype Field<T> = Absent | Present(value: Option<T>)

  /** `d.get(key, default)`. */
  function Get<T>(f: Field<T>, default: Option<T>): Option<T> {
    match f
    case Absent => default
    case Present(v) => v
  }

  /** The list under a key, or no items when the key is missing or null. */
  function Items<T>(f: Field<seq<T>>): seq<T> {
    if f.Present? && f.value.Some? then f.value.value else []
  }

  datatype EpisodeData = EpisodeData(
    number: Field<int>,
    url: Field<string>,
    title: Field<string>,
    description: Field<string>,
    duration: Field<int>,
    airDate: Field<Timestamp>)

  datatype SeasonData = SeasonData(
    number: Field<int>,
    url: Field<string>,
    title: Field<string>,
    description: Field<string>,
    year: Field<int>,
    episodeCount: Field<int>,
    episodes: Field<seq<EpisodeData>>)

  datatype AnimeData = AnimeData(
    url: Field<string>,
    title: Field<string>,
    description: Field<string>,
    coverUrl: Field<string>,
    originalTitle: Field<string>,
    year: Field<int>,
    status: Field<string>,
    studio: Field<string>,
    director: Field<string>,
    seasons: Field<seq<SeasonData>>)

  /** `data.get('number', 0)`; `None` here makes the comparison `> 0` raise. */
  function NumberOf(f: Field<int>): Option<int> {
    Get(f, Some(0))
  }

  /** The series fields taken over from the dictionary, each only when its key is present. */
  function ApplyAnimeData(a: AnimeSeries, d: AnimeData): AnimeSeries {
    a.(beschreibung := Get(d.description, a.beschreibung),
       coverUrl := Get(d.coverUrl, a.coverUrl),
       originalTitel := Get(d.originalTitle, a.originalTitel),
       erscheinungsjahr := Get(d.year, a.erscheinungsjahr),
       status := Get(d.status, a.status),
       studio := Get(d.studio, a.studio),
       regisseur := Get(d.director, a.regisseur))
  }

  function ApplySeasonData(s: Season, d: SeasonData): Season {
    s.(titel := Get(d.title, s.titel),
       beschreibung := Get(d.description, s.beschreibung),
       erscheinungsjahr := Get(d.year, s.erscheinungsjahr),
       anzahlEpisoden := Get(d.episodeCount, s.anzahlEpisoden))
  }

  function ApplyEpisodeData(e: Episode, d: EpisodeData): Episode {
    e.(titel := Get(d.title, e.titel),
       beschreibung := Get(d.description, e.beschreibung),
       laufzeit := Get(d.duration, e.laufzeit),
       luftdatum := Get(d.airDate, e.luftdatum))
  }

  /**
   * A series field changes exactly when its key is present, and then to the
   * dictionary's value (which may be null); the key fields never change.
   */
  lemma ApplyAnimeDataOverwritesPresentKeys(a: AnimeSeries, d: AnimeData)
    ensures var r := ApplyAnimeData(a, d);
      && (d.description.Absent? ==> r.beschreibung == a.beschreibung)
      && (d.description.Present? ==> r.beschreibung == d.description.value)
      && (d.coverUrl.Absent? ==> r.coverUrl == a.coverUrl)
      && (d.coverUrl.Present? ==> r.coverUrl == d.coverUrl.value)
      && (d.originalTitle.Absent? ==> r.originalTitel == a.originalTitel)
      && (d.originalTitle.Present? ==> r.originalTitel == d.originalTitle.value)
      && (d.year.Absent? ==> r.erscheinungsjahr == a.erscheinungsjahr)
      && (d.year.Present? ==> r.erscheinungsjahr == d.year.value)
      && (d.status.Absent? ==> r.status == a.status)
      && (d.status.Present? ==> r.status == d.status.value)
      && (d.studio.Absent? ==> r.studio == a.studio)
      && (d.studio.Present? ==> r.studio == d.studio.value)
      && (d.director.Absent? ==> r.regisseur == a.regisseur)
      && (d.director.Present? ==> r.regisseur == d.director.value)
      && r.(beschreibung := a.beschreibung, coverUrl := a.coverUrl, originalTitel := a.originalTitel,
            erscheinungsjahr := a.erscheinungsjahr, status := a.status, studio := a.studio,
            regisseur := a.regisseur) == a
  {
  }

  /** The same rule for seasons: key fields (id, series, number, URL) never change. */
  lemma ApplySeasonDataOverwritesPresentKeys(s: Season, d: SeasonData)
    ensures var r := ApplySeasonData(s, d);
      && (d.title.Absent? ==> r.titel == s.titel) && (d.title.Present? ==> r.titel == d.title.value)
      && (d.description.Absent? ==> r.beschreibung == s.beschreibung)
      && (d.description.Present? ==> r.beschreibung == d.description.value)
      && (d.year.Absent? ==> r.erscheinungsjahr == s.erscheinungsjahr)
      && (d.year.Present? ==> r.erscheinungsjahr == d.year.value)
      && (d.episodeCount.Absent? ==> r.anzahlEpisoden == s.anzahlEpisoden)
      && (d.episodeCount.Present? ==> r.anzahlEpisoden == d.episodeCount.value)
      && r.seasonId == s.seasonId && r.seriesId == s.seriesId
      && r.staffelNummer == s.staffelNummer && r.aniworldUrl == s.aniworldUrl
  {
  }

  /** The same rule for episodes: key fields (id, season, number, URL) never change. */
  lemma ApplyEpisodeDataOverwritesPresentKeys(e: Episode, d: EpisodeData)
    ensures var r := ApplyEpisodeData(e, d);
      && (d.title.Absent? ==> r.titel == e.titel) && (d.title.Present? ==> r.titel == d.title.value)
      && (d.description.Absent? ==> r.beschreibung == e.beschreibung)
      && (d.description.Present? ==> r.beschreibung == d.description.value)
      && (d.duration.Absent? ==> r.laufzeit == e.laufzeit)
      && (d.duration.Present? ==> r.laufzeit == d.duration.value)
      && (d.airDate.Absent? ==> r.luftdatum == e.luftdatum)
      && (d.airDate.Present? ==> r.luftdatum == d.airDate.value)
      && r.episodeId == e.episodeId && r.seasonId == e.seasonId
      && r.episodeNummer == e.episodeNummer && r.aniworldUrl == e.aniworldUrl
  {
  }

  /** An episode entry is processed without raising: its number is not null. */
  predicate EpisodeDataOk(e: EpisodeData) {
    NumberOf(e.number).Some?
  }

  /** Every entry of an episode list is processed without raising. */
  predicate EpisodesOk(items: seq<EpisodeData>) {
    forall j :: 0 <= j < |items| ==> EpisodeDataOk(items[j])
  }

  /**
   * A season entry is processed without raising: its number is not null and,
   * when it is positive, its episode list is not null and every episode
   * entry is fine.
   */
  predicate SeasonDataOk(s: SeasonData) {
    && NumberOf(s.number).Some?
    && (NumberOf(s.number).value > 0 ==> s.episodes != Present(None) && EpisodesOk(Items(s.episodes)))
  }

  /** Every entry of a season list is processed without raising. */
  predicate SeasonsOk(items: seq<SeasonData>) {
    forall i :: 0 <= i < |items| ==> SeasonDataOk(items[i])
  }

  /** The whole dictionary is processed without raising. */
  predicate AnimeDataOk(d: AnimeData) {
    d.seasons != Present(None) && SeasonsOk(Items(d.seasons))
  }

  /** The series URL the ingestion looks up: `data.get('url', '')`. */
  function SeriesUrl(d: AnimeData): Option<string> {
    Get(d.url, Some(""))
  }

  /** The title a new series gets: `data.get('title', 'Unbekannt')`. */
  function SeriesTitle(d: AnimeData): Option<string> {
    Get(d.title, Some("Unbekannt"))
  }

  // ---------------------------------------------------------------------
  // Natural keys and their uniqueness

  ghost predicate HasSeason(t: map<int, Season>, seriesId: int, nummer: int) {
    exists k :: k in t && t[k].seriesId == seriesId && t[k].staffelNummer == nummer
  }

  ghost predicate HasEpisode(t: map<int, Episode>, seasonId: int, nummer: int) {
    exists k :: k in t && t[k].seasonId == seasonId && t[k].episodeNummer == nummer
  }

  /** No two seasons of one series share a number. */
  ghost predicate SeasonsUnique(t: map<int, Season>) {
    forall i, j ::
      (i in t && j in t && t[i].seriesId == t[j].seriesId && t[i].staffelNummer == t[j].staffelNummer) ==> i == j
  }

  /** No two episodes of one season share a number. */
  ghost predicate EpisodesUnique(t: map<int, Episode>) {
    forall i, j ::
      (i in t && j in t && t[i].seasonId == t[j].seasonId && t[i].episodeNummer == t[j].episodeNummer) ==> i == j
  }

  /** Every season row of `t0` is still in `t1` under the same key, with the same natural key. */
  ghost predicate SeasonKeysKept(t0: map<int, Season>, t1: map<int, Season>) {
    forall k :: k in t0 ==>
      (k in t1 && t1[k].seriesId == t0[k].seriesId && t1[k].staffelNummer == t0[k].staffelNummer)
  }

  ghost predicate EpisodeKeysKept(t0: map<int, Episode>, t1: map<int, Episode>) {
    forall k :: k in t0 ==>
      (k in t1 && t1[k].seasonId == t0[k].seasonId && t1[k].episodeNummer == t0[k].episodeNummer)
  }

  /** Each episode entry with a positive number has a row in the season under key `seasonKey`. */
  ghost predicate EpisodesCovered(t: map<int, Episode>, seasonKey: int, items: seq<EpisodeData>) {
    forall j :: 0 <= j < |items| && NumberOf(items[j].number).Some? && NumberOf(items[j].number).value > 0
      ==> HasEpisode(t, seasonKey, NumberOf(items[j].number).value)
  }

  /** A season entry with a positive number has its row, and that row has its episodes. */
  ghost predicate SeasonCovered(seasons: map<int, Season>, episodes: map<int, Episode>, seriesId: int, d: SeasonData) {
    NumberOf(d.number).Some? && NumberOf(d.number).value > 0 ==>
      exists k :: k in seasons && seasons[k].seriesId == seriesId
        && seasons[k].staffelNummer == NumberOf(d.number).value
        && EpisodesCovered(episodes, k, Items(d.episodes))
  }

  ghost predicate SeasonsCovered(seasons: map<int, Season>, episodes: map<int, Episode>, seriesId: int, items: seq<SeasonData>) {
    forall i :: 0 <= i < |items| ==> SeasonCovered(seasons, episodes, seriesId, items[i])
  }

  /**
   * Everything the dictionary names is already stored: its URL finds the
   * series `seriesId`, and every season and episode it numbers is stored
   * under that series.
   */
  ghost predicate Covered(series: map<int, AnimeSeries>, nextSeriesId: int, c: Catalog, d: AnimeData, seriesId: int) {
    && SeriesKeyByUrl(series, nextSeriesId, SeriesUrl(d)) == Some(seriesId)
    && SeasonsCovered(c.seasons, c.episodes, seriesId, Items(d.seasons))
  }

  lemma {:induction false} EpisodesCoveredKept(t0: map<int, Episode>, t1: map<int, Episode>, k: int, items: seq<EpisodeData>)
    requires EpisodeKeysKept(t0, t1) && EpisodesCovered(t0, k, items)
    ensures EpisodesCovered(t1, k, items)
  {
    forall j | 0 <= j < |items| && NumberOf(items[j].number).Some? && NumberOf(items[j].number).value > 0
      ensures HasEpisode(t1, k, NumberOf(items[j].number).value)
    {
      var e :| e in t0 && t0[e].seasonId == k && t0[e].episodeNummer == NumberOf(items[j].number).value;
      assert e in t1;
    }
  }

  /** Coverage survives any change that keeps every row's natural key. */
  lemma {:induction false} SeasonsCoveredKept(s0: map<int, Season>, e0: map<int, Episode>,
                                               s1: map<int, Season>, e1: map<int, Episode>,
                                               seriesId: int, items: seq<SeasonData>)
    requires SeasonKeysKept(s0, s1) && EpisodeKeysKept(e0, e1)
    requires SeasonsCovered(s0, e0, seriesId, items)
    ensures SeasonsCovered(s1, e1, seriesId, items)
  {
    forall i | 0 <= i < |items|
      ensures SeasonCovered(s1, e1, seriesId, items[i])
    {
      var n := NumberOf(items[i].number);
      if n.Some? && n.value > 0 {
        var k :| k in s0 && s0[k].seriesId == seriesId && s0[k].staffelNummer == n.value
                 && EpisodesCovered(e0, k, Items(items[i].episodes));
        EpisodesCoveredKept(e0, e1, k, Items(items[i].episodes));
        assert k in s1;
      }
    }
  }

  /** Adding a season whose natural key is free under a fresh key keeps numbers unique. */
  lemma InsertFreshSeason(t: map<int, Season>, k: int, s: Season)
    requires k !in t && !HasSeason(t, s.seriesId, s.staffelNummer)
    ensures SeasonsUnique(t) ==> SeasonsUnique(t[k := s])
    ensures SeasonKeysKept(t, t[k := s])
  {
  }

  /** Adding an episode whose natural key is free under a fresh key keeps numbers unique. */
  lemma InsertFreshEpisode(t: map<int, Episode>, k: int, e: Episode)
    requires k !in t && !HasEpisode(t, e.seasonId, e.episodeNummer)
    ensures EpisodesUnique(t) ==> EpisodesUnique(t[k := e])
    ensures EpisodeKeysKept(t, t[k := e])
  {
  }

  /** Rewriting a season row without changing its natural key keeps numbers unique. */
  lemma RewriteSeason(t: map<int, Season>, k: int, s: Season)
    requires k in t && s.seriesId == t[k].seriesId && s.staffelNummer == t[k].staffelNummer
    ensures SeasonsUnique(t) ==> SeasonsUnique(t[k := s])
    ensures SeasonKeysKept(t, t[k := s]) && HasSeason(t[k := s], s.seriesId, s.staffelNummer)
  {
  }

  /** Rewriting an episode row without changing its natural key keeps numbers unique. */
  lemma RewriteEpisode(t: map<int, Episode>, k: int, e: Episode)
    requires k in t && e.seasonId == t[k].seasonId && e.episodeNummer == t[k].episodeNummer
    ensures EpisodesUnique(t) ==> EpisodesUnique(t[k := e])
    ensures EpisodeKeysKept(t, t[k := e]) && HasEpisode(t[k := e], e.seasonId, e.episodeNummer)
  {
  }

  /** A season that `find_by_series_id` lists is the row stored under its own id. */
  lemma ListedSeasonIsRow(t: map<int, Season>, next: int, seriesId: int, i: int)
    requires SeasonsKeyed(t, next) && 0 <= i < |SeasonsOfSeries(t, next, seriesId)|
    ensures var s := SeasonsOfSeries(t, next, seriesId)[i];
      s.seriesId == seriesId && s.seasonId.Some? && s.seasonId.value in t && t[s.seasonId.value] == s
  {
    var s := SeasonsOfSeries(t, next, seriesId)[i];
    assert s in SeasonsOfSeries(t, next, seriesId);
  }

  /** A number missing from `find_by_series_id` is free in the series. */
  lemma UnlistedSeasonIsFree(t: map<int, Season>, next: int, seriesId: int, nummer: int)
    requires SeasonsKeyed(t, next)
    requires forall s :: s in SeasonsOfSeries(t, next, seriesId) ==> s.staffelNummer != nummer
    ensures !HasSeason(t, seriesId, nummer)
  {
    forall k | k in t && t[k].seriesId == seriesId
      ensures t[k].staffelNummer != nummer
    {
      assert t[k] in SeasonsOfSeries(t, next, seriesId);
    }
  }

  /** An episode that `find_by_season_id` lists is the row stored under its own id. */
  lemma ListedEpisodeIsRow(t: map<int, Episode>, next: int, seasonId: int, i: int)
    requires EpisodesKeyed(t, next) && 0 <= i < |EpisodesOfSeason(t, next, seasonId)|
    ensures var e := EpisodesOfSeason(t, next, seasonId)[i];
      e.seasonId == seasonId && e.episodeId.Some? && e.episodeId.value in t && t[e.episodeId.value] == e
  {
    var e := EpisodesOfSeason(t, next, seasonId)[i];
    assert e in EpisodesOfSeason(t, next, seasonId);
  }

  /** A number missing from `find_by_season_id` is free in the season. */
  lemma UnlistedEpisodeIsFree(t: map<int, Episode>, next: int, seasonId: int, nummer: int)
    requires EpisodesKeyed(t, next)
    requires forall e :: e in EpisodesOfSeason(t, next, seasonId) ==> e.episodeNummer != nummer
    ensures !HasEpisode(t, seasonId, nummer)
  {
    forall k | k in t && t[k].seasonId == seasonId
      ensures t[k].episodeNummer != nummer
    {
      assert t[k] in EpisodesOfSeason(t, next, seasonId);
    }
  }

  // ---------------------------------------------------------------------
  // get_or_create on values

  /** What a get-or-create returns, with the table and its counter afterwards. */
  datatype Got<R> = Got(row: R, rows: map<int, R>, next: int)

  /** Where the `for` loop of `get_or_create_season` stops: the first season numbered `n`, or the end. */
  function FirstSeasonNumbered(list: seq<Season>, n: int): (i: nat)
    ensures i <= |list|
    ensures forall j :: 0 <= j < i ==> list[j].staffelNummer != n
    ensures i < |list| ==> list[i].staffelNummer == n
  {
    if list == [] || list[0].staffelNummer == n then 0 else 1 + FirstSeasonNumbered(list[1..], n)
  }

  /** Where the `for` loop of `get_or_create_episode` stops. */
  function FirstEpisodeNumbered(list: seq<Episode>, n: int): (i: nat)
    ensures i <= |list|
    ensures forall j :: 0 <= j < i ==> list[j].episodeNummer != n
    ensures i < |list| ==> list[i].episodeNummer == n
  {
    if list == [] || list[0].episodeNummer == n then 0 else 1 + FirstEpisodeNumbered(list[1..], n)
  }

  /** The `for` loop of `get_or_create_season`, scanning the listed seasons in order. */
  method ScanSeasons(seasons: seq<Season>, nummer: int) returns (i: nat)
    ensures i == FirstSeasonNumbered(seasons, nummer)
  {
    i := 0;
    while i < |seasons|
      invariant 0 <= i <= |seasons|
      invariant forall j :: 0 <= j < i ==> seasons[j].staffelNummer != nummer
    {
      if seasons[i].staffelNummer == nummer {
        return;
      }
      i := i + 1;
    }
  }

  /** The `for` loop of `get_or_create_episode`, scanning the listed episodes in order. */
  method ScanEpisodes(episodes: seq<Episode>, nummer: int) returns (i: nat)
    ensures i == FirstEpisodeNumbered(episodes, nummer)
  {
    i := 0;
    while i < |episodes|
      invariant 0 <= i <= |episodes|
      invariant forall j :: 0 <= j < i ==> episodes[j].episodeNummer != nummer
    {
      if episodes[i].episodeNummer == nummer {
        return;
      }
      i := i + 1;
    }
  }

  /**
   * `get_or_create_season(seriesId, n, url)`: the first season of the series
   * (in season-number order) numbered `n`, or a new season saved with the URL.
   */
  function GetOrCreateSeasonSpec(t: map<int, Season>, next: int, seriesId: int, n: int, url: Option<string>): Got<Season> {
    var list := SeasonsOfSeries(t, next, seriesId);
    var i := FirstSeasonNumbered(list, n);
    if i < |list| then
      Got(list[i], t, next)
    else
      var s := NewSeason.(seriesId := seriesId, staffelNummer := n, aniworldUrl := url);
      var w := SaveSeason(t, next, s);
      Got(s.(seasonId := Some(w.id)), w.rows, w.next)
  }

  /** `get_or_create_episode(seasonId, n, url)`, the same rule one level down. */
  function GetOrCreateEpisodeSpec(t: map<int, Episode>, next: int, seasonId: int, n: int, url: Option<string>): Got<Episode> {
    var list := EpisodesOfSeason(t, next, seasonId);
    var i := FirstEpisodeNumbered(list, n);
    if i < |list| then
      Got(list[i], t, next)
    else
      var e := NewEpisode.(seasonId := seasonId, episodeNummer := n, aniworldUrl := url);
      var w := SaveEpisode(t, next, e);
      Got(e.(episodeId := Some(w.id)), w.rows, w.next)
  }

  /**
   * A stored season numbered `n` is returned without any write; otherwise
   * exactly one row is added, under the next key. Either way the returned
   * season is the stored row, carries the requested series and number, and
   * season numbers stay unique per series.
   */
  lemma GetOrCreateSeasonSpecFacts(t: map<int, Season>, next: int, seriesId: int, n: int, url: Option<string>)
    requires SeasonsKeyed(t, next)
    ensures var g := GetOrCreateSeasonSpec(t, next, seriesId, n, url);
      && SeasonsKeyed(g.rows, g.next) && SeasonKeysKept(t, g.rows)
      && g.row.seriesId == seriesId && g.row.staffelNummer == n
      && g.row.seasonId.Some? && g.row.seasonId.value in g.rows && g.rows[g.row.seasonId.value] == g.row
      && (SeasonsUnique(t) ==> SeasonsUnique(g.rows))
      && (HasSeason(t, seriesId, n) ==> g.rows == t && g.next == next)
  {
    var list := SeasonsOfSeries(t, next, seriesId);
    var i := FirstSeasonNumbered(list, n);
    if i < |list| {
      ListedSeasonIsRow(t, next, seriesId, i);
    } else {
      forall s | s in list
        ensures s.staffelNummer != n
      {
        var j :| 0 <= j < |list| && list[j] == s;
      }
      UnlistedSeasonIsFree(t, next, seriesId, n);
      InsertFreshSeason(t, next, NewSeason.(seasonId := Some(next), seriesId := seriesId, staffelNummer := n, aniworldUrl := url));
    }
  }

  /** A season number not yet stored in the series is added as one new row under the next key. */
  lemma GetOrCreateSeasonSpecInserts(t: map<int, Season>, next: int, seriesId: int, n: int, url: Option<string>)
    requires SeasonsKeyed(t, next) && !HasSeason(t, seriesId, n)
    ensures var g := GetOrCreateSeasonSpec(t, next, seriesId, n, url);
      && g.row == NewSeason.(seasonId := Some(next), seriesId := seriesId, staffelNummer := n, aniworldUrl := url)
      && g.rows == t[next := g.row] && g.next == next + 1
  {
    var list := SeasonsOfSeries(t, next, seriesId);
    if FirstSeasonNumbered(list, n) < |list| {
      ListedSeasonIsRow(t, next, seriesId, FirstSeasonNumbered(list, n));
      assert false;
    }
  }

  /** The same facts for `get_or_create_episode`. */
  lemma GetOrCreateEpisodeSpecFacts(t: map<int, Episode>, next: int, seasonId: int, n: int, url: Option<string>)
    requires EpisodesKeyed(t, next)
    ensures var g := GetOrCreateEpisodeSpec(t, next, seasonId, n, url);
      && EpisodesKeyed(g.rows, g.next) && EpisodeKeysKept(t, g.rows)
      && g.row.seasonId == seasonId && g.row.episodeNummer == n
      && g.row.episodeId.Some? && g.row.episodeId.value in g.rows && g.rows[g.row.episodeId.value] == g.row
      && (EpisodesUnique(t) ==> EpisodesUnique(g.rows))
      && (HasEpisode(t, seasonId, n) ==> g.rows == t && g.next == next)
  {
    var list := EpisodesOfSeason(t, next, seasonId);
    var i := FirstEpisodeNumbered(list, n);
    if i < |list| {
      ListedEpisodeIsRow(t, next, seasonId, i);
    } else {
      forall e | e in list
        ensures e.episodeNummer != n
      {
        var j :| 0 <= j < |list| && list[j] == e;
      }
      UnlistedEpisodeIsFree(t, next, seasonId, n);
      InsertFreshEpisode(t, next, NewEpisode.(episodeId := Some(next), seasonId := seasonId, episodeNummer := n, aniworldUrl := url));
    }
  }

  /** An episode number not yet stored in the season is added as one new row under the next key. */
  lemma GetOrCreateEpisodeSpecInserts(t: map<int, Episode>, next: int, seasonId: int, n: int, url: Option<string>)
    requires EpisodesKeyed(t, next) && !HasEpisode(t, seasonId, n)
    ensures var g := GetOrCreateEpisodeSpec(t, next, seasonId, n, url);
      && g.row == NewEpisode.(episodeId := Some(next), seasonId := seasonId, episodeNummer := n, aniworldUrl := url)
      && g.rows == t[next := g.row] && g.next == next + 1
  {
    var list := EpisodesOfSeason(t, next, seasonId);
    if FirstEpisodeNumbered(list, n) < |list| {
      ListedEpisodeIsRow(t, next, seasonId, FirstEpisodeNumbered(list, n));
      assert false;
    }
  }

  // ---------------------------------------------------------------------
  // The ingestion of seasons and episodes on values

  /** The seasons and episodes tables with their counters. */
  datatype Catalog = Catalog(seasons: map<int, Season>, nextSeasonId: int, episodes: map<int, Episode>, nextEpisodeId: int)

  ghost predicate CatalogKeyed(c: Catalog) {
    SeasonsKeyed(c.seasons, c.nextSeasonId) && EpisodesKeyed(c.episodes, c.nextEpisodeId)
  }

  ghost predicate CatalogUnique(c: Catalog) {
    SeasonsUnique(c.seasons) && EpisodesUnique(c.episodes)
  }

  /** Every row of `c0` is still in `c1` under its key, with its natural key. */
  ghost predicate CatalogKept(c0: Catalog, c1: Catalog) {
    SeasonKeysKept(c0.seasons, c1.seasons) && EpisodeKeysKept(c0.episodes, c1.episodes)
  }

  /** No row was added or removed. */
  predicate SameRows(c0: Catalog, c1: Catalog) {
    && c0.seasons.Keys == c1.seasons.Keys && c0.nextSeasonId == c1.nextSeasonId
    && c0.episodes.Keys == c1.episodes.Keys && c0.nextEpisodeId == c1.nextEpisodeId
  }

  /** The tables after part of the ingestion, and whether it raised there. */
  datatype Outcome = Outcome(c: Catalog, raised: bool)

  /**
   * One entry of a season's episode list: a null number raises, a number
   * that is not positive is skipped, else the episode is fetched or created
   * and saved with the entry's fields.
   */
  function IngestEpisode(c: Catalog, seasonKey: int, ed: EpisodeData): (o: Outcome)
    ensures o.raised <==> NumberOf(ed.number).None?
    ensures o.c.seasons == c.seasons && o.c.nextSeasonId == c.nextSeasonId
    ensures (o.raised || NumberOf(ed.number).value <= 0) ==> o.c == c
  {
    var m := NumberOf(ed.number);
    if m.None? then Outcome(c, true)
    else if m.value <= 0 then Outcome(c, false)
    else
      var g := GetOrCreateEpisodeSpec(c.episodes, c.nextEpisodeId, seasonKey, m.value, Get(ed.url, None));
      var w := SaveEpisode(g.rows, g.next, ApplyEpisodeData(g.row, ed));
      Outcome(c.(episodes := w.rows, nextEpisodeId := w.next), false)
  }

  /** The episode list, entry by entry from the first; the first raise ends it. */
  function IngestEpisodes(c: Catalog, seasonKey: int, items: seq<EpisodeData>): Outcome
    decreases |items|
  {
    if items == [] then Outcome(c, false)
    else
      var o := IngestEpisodes(c, seasonKey, items[..|items| - 1]);
      if o.raised then o else IngestEpisode(o.c, seasonKey, items[|items| - 1])
  }

  /**
   * One entry of the season list: a null number raises, a number that is
   * not positive is skipped, else the season is fetched or created, saved
   * with the entry's fields, and its episode list (a null one raises) is
   * ingested under the season's id.
   */
  function IngestSeason(c: Catalog, seriesId: int, sd: SeasonData): (o: Outcome)
    ensures NumberOf(sd.number).None? ==> o.raised && o.c == c
    ensures NumberOf(sd.number).Some? && NumberOf(sd.number).value <= 0 ==> !o.raised && o.c == c
  {
    var n := NumberOf(sd.number);
    if n.None? then Outcome(c, true)
    else if n.value <= 0 then Outcome(c, false)
    else
      var g := GetOrCreateSeasonSpec(c.seasons, c.nextSeasonId, seriesId, n.value, Get(sd.url, None));
      var s := ApplySeasonData(g.row, sd);
      var w := SaveSeason(g.rows, g.next, s);
      var c1 := c.(seasons := w.rows, nextSeasonId := w.next);
      match sd.episodes
      case Absent => Outcome(c1, false)
      case Present(None) => Outcome(c1, true)
      // a stored season always carries its id (see IngestSeasonFacts)
      case Present(Some(items)) => IngestEpisodes(c1, s.seasonId.GetOr(0), items)
  }

  /** The season list, entry by entry from the first; the first raise ends it. */
  function IngestSeasons(c: Catalog, seriesId: int, items: seq<SeasonData>): Outcome
    decreases |items|
  {
    if items == [] then Outcome(c, false)
    else
      var o := IngestSeasons(c, seriesId, items[..|items| - 1]);
      if o.raised then o else IngestSeason(o.c, seriesId, items[|items| - 1])
  }

  /** The seasons part of `save_from_scraper_data`: no `seasons` key does nothing, a null list raises. */
  function IngestAnimeData(c: Catalog, seriesId: int, d: AnimeData): Outcome {
    match d.seasons
    case Absent => Outcome(c, false)
    case Present(None) => Outcome(c, true)
    case Present(Some(items)) => IngestSeasons(c, seriesId, items)
  }

  lemma CatalogKeptTransitive(c0: Catalog, c1: Catalog, c2: Catalog)
    requires CatalogKept(c0, c1) && CatalogKept(c1, c2)
    ensures CatalogKept(c0, c2)
  {
  }

  /** Coverage of a list is coverage of all but its last entry and of the last entry. */
  lemma EpisodesCoveredSplit(t: map<int, Episode>, k: int, items: seq<EpisodeData>)
    requires items != []
    ensures EpisodesCovered(t, k, items) <==>
      EpisodesCovered(t, k, items[..|items| - 1]) && EpisodesCovered(t, k, [items[|items| - 1]])
  {
    var pre, last := items[..|items| - 1], [items[|items| - 1]];
    assert forall j :: 0 <= j < |pre| ==> pre[j] == items[j];
    assert last[0] == items[|items| - 1];
  }

  lemma SeasonsCoveredSplit(s: map<int, Season>, e: map<int, Episode>, sid: int, items: seq<SeasonData>)
    requires items != []
    ensures SeasonsCovered(s, e, sid, items) <==>
      SeasonsCovered(s, e, sid, items[..|items| - 1]) && SeasonCovered(s, e, sid, items[|items| - 1])
  {
    var pre := items[..|items| - 1];
    assert forall j :: 0 <= j < |pre| ==> pre[j] == items[j];
  }

  /**
   * The step of one episode entry with a positive number: the episode is
   * fetched or created and saved with the entry's fields under its own key,
   * which keeps its natural key.
   */
  lemma IngestEpisodeStep(c: Catalog, k: int, ed: EpisodeData)
    requires CatalogKeyed(c) && NumberOf(ed.number).Some? && NumberOf(ed.number).value > 0
    ensures var n := NumberOf(ed.number).value;
      var g := GetOrCreateEpisodeSpec(c.episodes, c.nextEpisodeId, k, n, Get(ed.url, None));
      var o := IngestEpisode(c, k, ed);
      && g.row.episodeId.Some? && g.row.episodeId.value in g.rows
      && o.c == c.(episodes := g.rows[g.row.episodeId.value := ApplyEpisodeData(g.row, ed)], nextEpisodeId := g.next)
      && !o.raised
  {
    var n := NumberOf(ed.number).value;
    GetOrCreateEpisodeSpecFacts(c.episodes, c.nextEpisodeId, k, n, Get(ed.url, None));
  }

  /** One episode entry keeps the tables keyed, every row's natural key and unique episode numbers. */
  lemma IngestEpisodeKeeps(c: Catalog, k: int, ed: EpisodeData)
    requires CatalogKeyed(c)
    ensures var o := IngestEpisode(c, k, ed);
      && CatalogKeyed(o.c) && CatalogKept(c, o.c)
      && o.c.seasons == c.seasons && o.c.nextSeasonId == c.nextSeasonId
      && (EpisodesUnique(c.episodes) ==> EpisodesUnique(o.c.episodes))
      && (o.raised <==> !EpisodeDataOk(ed))
  {
    var m := NumberOf(ed.number);
    if m.Some? && m.value > 0 {
      var url := Get(ed.url, None);
      var g := GetOrCreateEpisodeSpec(c.episodes, c.nextEpisodeId, k, m.value, url);
      GetOrCreateEpisodeSpecFacts(c.episodes, c.nextEpisodeId, k, m.value, url);
      IngestEpisodeStep(c, k, ed);
      var id := g.row.episodeId.value;
      var e := ApplyEpisodeData(g.row, ed);
      RewriteEpisode(g.rows, id, e);
      RewriteEpisodeKeyed(g.rows, g.next, id, e);
      EpisodeKeysKeptTransitive(c.episodes, g.rows, g.rows[id := e]);
    }
  }

  /** Rewriting a row under its own key keeps the table keyed. */
  lemma RewriteEpisodeKeyed(t: map<int, Episode>, next: int, id: int, e: Episode)
    requires EpisodesKeyed(t, next) && id in t && e.episodeId == Some(id)
    ensures EpisodesKeyed(t[id := e], next)
  {
  }

  lemma EpisodeKeysKeptTransitive(t0: map<int, Episode>, t1: map<int, Episode>, t2: map<int, Episode>)
    requires EpisodeKeysKept(t0, t1) && EpisodeKeysKept(t1, t2)
    ensures EpisodeKeysKept(t0, t2)
  {
  }

  /** After one episode entry that did not raise, the episode is stored when its number is positive. */
  lemma IngestEpisodeCovers(c: Catalog, k: int, ed: EpisodeData)
    requires CatalogKeyed(c)
    ensures var o := IngestEpisode(c, k, ed);
      !o.raised ==> EpisodesCovered(o.c.episodes, k, [ed])
  {
    var m := NumberOf(ed.number);
    if m.Some? && m.value > 0 {
      var url := Get(ed.url, None);
      var g := GetOrCreateEpisodeSpec(c.episodes, c.nextEpisodeId, k, m.value, url);
      GetOrCreateEpisodeSpecFacts(c.episodes, c.nextEpisodeId, k, m.value, url);
      IngestEpisodeStep(c, k, ed);
      RewriteEpisode(g.rows, g.row.episodeId.value, ApplyEpisodeData(g.row, ed));
      assert [ed][0] == ed;
    }
  }

  /** An episode entry that is stored already adds no row. */
  lemma IngestEpisodeIdempotent(c: Catalog, k: int, ed: EpisodeData)
    requires CatalogKeyed(c) && EpisodesCovered(c.episodes, k, [ed])
    ensures SameRows(c, IngestEpisode(c, k, ed).c)
  {
    var m := NumberOf(ed.number);
    if m.Some? && m.value > 0 {
      assert [ed][0] == ed;
      var url := Get(ed.url, None);
      var g := GetOrCreateEpisodeSpec(c.episodes, c.nextEpisodeId, k, m.value, url);
      GetOrCreateEpisodeSpecFacts(c.episodes, c.nextEpisodeId, k, m.value, url);
      IngestEpisodeStep(c, k, ed);
    }
  }

  /** An episode list keeps the tables keyed, every row's natural key and unique episode numbers. */
  lemma {:induction false} IngestEpisodesKeeps(c: Catalog, k: int, items: seq<EpisodeData>)
    requires CatalogKeyed(c)
    ensures var o := IngestEpisodes(c, k, items);
      && CatalogKeyed(o.c) && CatalogKept(c, o.c)
      && o.c.seasons == c.seasons && o.c.nextSeasonId == c.nextSeasonId
      && (EpisodesUnique(c.episodes) ==> EpisodesUnique(o.c.episodes))
    decreases |items|
  {
    if items != [] {
      var pre := items[..|items| - 1];
      IngestEpisodesKeeps(c, k, pre);
      var o1 := IngestEpisodes(c, k, pre);
      if !o1.raised {
        IngestEpisodeKeeps(o1.c, k, items[|items| - 1]);
        CatalogKeptTransitive(c, o1.c, IngestEpisodes(c, k, items).c);
      }
    }
  }

  lemma EpisodesOkSplit(items: seq<EpisodeData>)
    requires items != []
    ensures EpisodesOk(items) <==> EpisodesOk(items[..|items| - 1]) && EpisodeDataOk(items[|items| - 1])
  {
    var pre := items[..|items| - 1];
    assert forall j :: 0 <= j < |pre| ==> pre[j] == items[j];
  }

  /** An episode list raises exactly when one of its entries has a null number. */
  lemma {:induction false} IngestEpisodesRaises(c: Catalog, k: int, items: seq<EpisodeData>)
    ensures IngestEpisodes(c, k, items).raised <==> !EpisodesOk(items)
    decreases |items|
  {
    if items != [] {
      IngestEpisodesRaises(c, k, items[..|items| - 1]);
      EpisodesOkSplit(items);
    }
  }

  /** After an episode list that did not raise, every entry with a positive number is stored. */
  lemma {:induction false} IngestEpisodesCovers(c: Catalog, k: int, items: seq<EpisodeData>)
    requires CatalogKeyed(c)
    ensures var o := IngestEpisodes(c, k, items);
      !o.raised ==> EpisodesCovered(o.c.episodes, k, items)
    decreases |items|
  {
    if items != [] {
      var pre := items[..|items| - 1];
      IngestEpisodesCovers(c, k, pre);
      IngestEpisodesKeeps(c, k, pre);
      var o1 := IngestEpisodes(c, k, pre);
      if !o1.raised {
        IngestEpisodeKeeps(o1.c, k, items[|items| - 1]);
        IngestEpisodeCovers(o1.c, k, items[|items| - 1]);
        var o := IngestEpisode(o1.c, k, items[|items| - 1]);
        EpisodesCoveredKept(o1.c.episodes, o.c.episodes, k, pre);
        EpisodesCoveredSplit(o.c.episodes, k, items);
      }
    }
  }

  /** An episode list whose entries are all stored already adds no row. */
  lemma {:induction false} IngestEpisodesIdempotent(c: Catalog, k: int, items: seq<EpisodeData>)
    requires CatalogKeyed(c) && EpisodesCovered(c.episodes, k, items)
    ensures SameRows(c, IngestEpisodes(c, k, items).c)
    decreases |items|
  {
    if items != [] {
      var pre := items[..|items| - 1];
      EpisodesCoveredSplit(c.episodes, k, items);
      IngestEpisodesIdempotent(c, k, pre);
      IngestEpisodesKeeps(c, k, pre);
      var o1 := IngestEpisodes(c, k, pre);
      if !o1.raised {
        EpisodesCoveredKept(c.episodes, o1.c.episodes, k, [items[|items| - 1]]);
        IngestEpisodeIdempotent(o1.c, k, items[|items| - 1]);
      }
    }
  }

  /**
   * The step of one season entry with a positive number: the season is
   * fetched or created, saved with the entry's fields under its own key,
   * and the episode list is ingested under that key.
   */
  lemma IngestSeasonStep(c: Catalog, sid: int, sd: SeasonData)
    requires CatalogKeyed(c) && NumberOf(sd.number).Some? && NumberOf(sd.number).value > 0
    ensures var g := GetOrCreateSeasonSpec(c.seasons, c.nextSeasonId, sid, NumberOf(sd.number).value, Get(sd.url, None));
      && g.row.seasonId.Some? && g.row.seasonId.value in g.rows
      && var key := g.row.seasonId.value;
         var c1 := c.(seasons := g.rows[key := ApplySeasonData(g.row, sd)], nextSeasonId := g.next);
         IngestSeason(c, sid, sd) ==
           if sd.episodes == Present(None) then Outcome(c1, true) else IngestEpisodes(c1, key, Items(sd.episodes))
  {
    GetOrCreateSeasonSpecFacts(c.seasons, c.nextSeasonId, sid, NumberOf(sd.number).value, Get(sd.url, None));
  }

  /**
   * The season save inside one season entry: the tables stay keyed, every
   * row keeps its natural key, numbers stay unique, and the saved season is
   * stored under its key with the requested series and number.
   */
  lemma IngestSeasonSaves(c: Catalog, sid: int, sd: SeasonData)
    requires CatalogKeyed(c) && NumberOf(sd.number).Some? && NumberOf(sd.number).value > 0
    ensures var g := GetOrCreateSeasonSpec(c.seasons, c.nextSeasonId, sid, NumberOf(sd.number).value, Get(sd.url, None));
      && g.row.seasonId.Some?
      && var key := g.row.seasonId.value;
         var c1 := c.(seasons := g.rows[key := ApplySeasonData(g.row, sd)], nextSeasonId := g.next);
         && CatalogKeyed(c1) && CatalogKept(c, c1) && (CatalogUnique(c) ==> CatalogUnique(c1))
         && c1.seasons[key].seriesId == sid && c1.seasons[key].staffelNummer == NumberOf(sd.number).value
  {
    var g := GetOrCreateSeasonSpec(c.seasons, c.nextSeasonId, sid, NumberOf(sd.number).value, Get(sd.url, None));
    GetOrCreateSeasonSpecFacts(c.seasons, c.nextSeasonId, sid, NumberOf(sd.number).value, Get(sd.url, None));
    RewriteSeason(g.rows, g.row.seasonId.value, ApplySeasonData(g.row, sd));
  }

  /** One season entry keeps the tables keyed, every row's natural key and unique numbers. */
  lemma IngestSeasonKeeps(c: Catalog, sid: int, sd: SeasonData)
    requires CatalogKeyed(c)
    ensures var o := IngestSeason(c, sid, sd);
      && CatalogKeyed(o.c) && CatalogKept(c, o.c)
      && (CatalogUnique(c) ==> CatalogUnique(o.c))
  {
    var n := NumberOf(sd.number);
    if n.Some? && n.value > 0 {
      var g := GetOrCreateSeasonSpec(c.seasons, c.nextSeasonId, sid, n.value, Get(sd.url, None));
      IngestSeasonSaves(c, sid, sd);
      IngestSeasonStep(c, sid, sd);
      var key := g.row.seasonId.value;
      var c1 := c.(seasons := g.rows[key := ApplySeasonData(g.row, sd)], nextSeasonId := g.next);
      IngestEpisodesKeeps(c1, key, Items(sd.episodes));
      CatalogKeptTransitive(c, c1, IngestSeason(c, sid, sd).c);
    }
  }

  /** One season entry raises exactly when it is malformed. */
  lemma IngestSeasonRaises(c: Catalog, sid: int, sd: SeasonData)
    requires CatalogKeyed(c)
    ensures IngestSeason(c, sid, sd).raised <==> !SeasonDataOk(sd)
  {
    var n := NumberOf(sd.number);
    if n.Some? && n.value > 0 {
      var g := GetOrCreateSeasonSpec(c.seasons, c.nextSeasonId, sid, n.value, Get(sd.url, None));
      IngestSeasonStep(c, sid, sd);
      var key := g.row.seasonId.value;
      var c1 := c.(seasons := g.rows[key := ApplySeasonData(g.row, sd)], nextSeasonId := g.next);
      IngestEpisodesRaises(c1, key, Items(sd.episodes));
    }
  }

  /** After one season entry that did not raise, the season and its episodes are stored. */
  lemma IngestSeasonCovers(c: Catalog, sid: int, sd: SeasonData)
    requires CatalogKeyed(c)
    ensures var o := IngestSeason(c, sid, sd);
      !o.raised ==> SeasonCovered(o.c.seasons, o.c.episodes, sid, sd)
  {
    var n := NumberOf(sd.number);
    if n.Some? && n.value > 0 {
      var g := GetOrCreateSeasonSpec(c.seasons, c.nextSeasonId, sid, n.value, Get(sd.url, None));
      IngestSeasonSaves(c, sid, sd);
      IngestSeasonStep(c, sid, sd);
      var key := g.row.seasonId.value;
      var c1 := c.(seasons := g.rows[key := ApplySeasonData(g.row, sd)], nextSeasonId := g.next);
      IngestEpisodesKeeps(c1, key, Items(sd.episodes));
      IngestEpisodesCovers(c1, key, Items(sd.episodes));
      var o := IngestSeason(c, sid, sd);
      if !o.raised {
        assert key in o.c.seasons;
      }
    }
  }

  /** With unique numbers, get_or_create_season on a stored number returns that row and writes nothing. */
  lemma StoredSeasonFound(c: Catalog, sid: int, n: int, url: Option<string>, k0: int)
    requires CatalogKeyed(c) && CatalogUnique(c)
    requires k0 in c.seasons && c.seasons[k0].seriesId == sid && c.seasons[k0].staffelNummer == n
    ensures var g := GetOrCreateSeasonSpec(c.seasons, c.nextSeasonId, sid, n, url);
      g.rows == c.seasons && g.next == c.nextSeasonId && g.row.seasonId == Some(k0)
  {
    GetOrCreateSeasonSpecFacts(c.seasons, c.nextSeasonId, sid, n, url);
  }

  /** A season entry whose season and episodes are all stored already adds no row. */
  lemma IngestSeasonIdempotent(c: Catalog, sid: int, sd: SeasonData)
    requires CatalogKeyed(c) && CatalogUnique(c) && SeasonCovered(c.seasons, c.episodes, sid, sd)
    ensures SameRows(c, IngestSeason(c, sid, sd).c)
  {
    var n := NumberOf(sd.number);
    if n.Some? && n.value > 0 {
      var items := Items(sd.episodes);
      var k0 :| k0 in c.seasons && c.seasons[k0].seriesId == sid && c.seasons[k0].staffelNummer == n.value
                && EpisodesCovered(c.episodes, k0, items);
      var g := GetOrCreateSeasonSpec(c.seasons, c.nextSeasonId, sid, n.value, Get(sd.url, None));
      StoredSeasonFound(c, sid, n.value, Get(sd.url, None), k0);
      IngestSeasonSaves(c, sid, sd);
      IngestSeasonStep(c, sid, sd);
      var c1 := c.(seasons := g.rows[k0 := ApplySeasonData(g.row, sd)], nextSeasonId := g.next);
      assert SameRows(c, c1);
      IngestEpisodesIdempotent(c1, k0, items);
    }
  }

  /** A season list keeps the tables keyed, every row's natural key and unique numbers. */
  lemma {:induction false} IngestSeasonsKeeps(c: Catalog, sid: int, items: seq<SeasonData>)
    requires CatalogKeyed(c)
    ensures var o := IngestSeasons(c, sid, items);
      && CatalogKeyed(o.c) && CatalogKept(c, o.c)
      && (CatalogUnique(c) ==> CatalogUnique(o.c))
    decreases |items|
  {
    if items != [] {
      var pre := items[..|items| - 1];
      IngestSeasonsKeeps(c, sid, pre);
      var o1 := IngestSeasons(c, sid, pre);
      if !o1.raised {
        IngestSeasonKeeps(o1.c, sid, items[|items| - 1]);
        CatalogKeptTransitive(c, o1.c, IngestSeasons(c, sid, items).c);
      }
    }
  }

  lemma SeasonsOkSplit(items: seq<SeasonData>)
    requires items != []
    ensures SeasonsOk(items) <==> SeasonsOk(items[..|items| - 1]) && SeasonDataOk(items[|items| - 1])
  {
    var pre := items[..|items| - 1];
    assert forall j :: 0 <= j < |pre| ==> pre[j] == items[j];
  }

  /** A season list raises exactly when one of its entries is malformed. */
  lemma {:induction false} IngestSeasonsRaises(c: Catalog, sid: int, items: seq<SeasonData>)
    requires CatalogKeyed(c)
    ensures IngestSeasons(c, sid, items).raised <==> !SeasonsOk(items)
    decreases |items|
  {
    if items != [] {
      var pre := items[..|items| - 1];
      IngestSeasonsRaises(c, sid, pre);
      SeasonsOkSplit(items);
      if !IngestSeasons(c, sid, pre).raised {
        IngestSeasonsKeeps(c, sid, pre);
        IngestSeasonRaises(IngestSeasons(c, sid, pre).c, sid, items[|items| - 1]);
      }
    }
  }

  /** After a season list that did not raise, every season it names and their episodes are stored. */
  lemma {:induction false} IngestSeasonsCovers(c: Catalog, sid: int, items: seq<SeasonData>)
    requires CatalogKeyed(c)
    ensures var o := IngestSeasons(c, sid, items);
      !o.raised ==> SeasonsCovered(o.c.seasons, o.c.episodes, sid, items)
    decreases |items|
  {
    if items != [] {
      var pre := items[..|items| - 1];
      IngestSeasonsCovers(c, sid, pre);
      IngestSeasonsKeeps(c, sid, pre);
      var o1 := IngestSeasons(c, sid, pre);
      if !o1.raised {
        IngestSeasonKeeps(o1.c, sid, items[|items| - 1]);
        IngestSeasonCovers(o1.c, sid, items[|items| - 1]);
        var o := IngestSeason(o1.c, sid, items[|items| - 1]);
        SeasonsCoveredKept(o1.c.seasons, o1.c.episodes, o.c.seasons, o.c.episodes, sid, pre);
        SeasonsCoveredSplit(o.c.seasons, o.c.episodes, sid, items);
      }
    }
  }

  /** A season list whose seasons and episodes are all stored already adds no row. */
  lemma {:induction false} IngestSeasonsIdempotent(c: Catalog, sid: int, items: seq<SeasonData>)
    requires CatalogKeyed(c) && CatalogUnique(c) && SeasonsCovered(c.seasons, c.episodes, sid, items)
    ensures SameRows(c, IngestSeasons(c, sid, items).c)
    decreases |items|
  {
    if items != [] {
      var pre := items[..|items| - 1];
      SeasonsCoveredSplit(c.seasons, c.episodes, sid, items);
      IngestSeasonsIdempotent(c, sid, pre);
      IngestSeasonsKeeps(c, sid, pre);
      var o1 := IngestSeasons(c, sid, pre);
      if !o1.raised {
        SeasonsCoveredKept(c.seasons, c.episodes, o1.c.seasons, o1.c.episodes, sid, items);
        SeasonsCoveredSplit(o1.c.seasons, o1.c.episodes, sid, items);
        IngestSeasonIdempotent(o1.c, sid, items[|items| - 1]);
      }
    }
  }

  /**
   * The seasons part of one `save_from_scraper_data` call: it keeps the
   * tables keyed, every row's natural key and unique numbers; it raises
   * exactly when the dictionary is malformed; when it does not raise, every
   * season and episode the dictionary names is stored; and when all of them
   * were stored already, it adds no row.
   */
  lemma IngestAnimeDataFacts(c: Catalog, sid: int, d: AnimeData)
    requires CatalogKeyed(c)
    ensures var o := IngestAnimeData(c, sid, d);
      && CatalogKeyed(o.c) && CatalogKept(c, o.c)
      && (CatalogUnique(c) ==> CatalogUnique(o.c))
      && (o.raised <==> !AnimeDataOk(d))
      && (!o.raised ==> SeasonsCovered(o.c.seasons, o.c.episodes, sid, Items(d.seasons)))
      && (CatalogUnique(c) && SeasonsCovered(c.seasons, c.episodes, sid, Items(d.seasons)) ==> SameRows(c, o.c))
  {
    if d.seasons.Present? && d.seasons.value.Some? {
      var items := d.seasons.value.value;
      IngestSeasonsKeeps(c, sid, items);
      IngestSeasonsRaises(c, sid, items);
      IngestSeasonsCovers(c, sid, items);
      if CatalogUnique(c) && SeasonsCovered(c.seasons, c.episodes, sid, items) {
        IngestSeasonsIdempotent(c, sid, items);
      }
    }
  }

  /**
   * Ingesting the same dictionary twice under the same series: the second
   * run adds no season and no episode, and numbers stay unique.
   */
  lemma IngestTwiceAddsNothing(c: Catalog, sid: int, d: AnimeData)
    requires CatalogKeyed(c) && CatalogUnique(c)
    ensures var o1 := IngestAnimeData(c, sid, d);
      var o2 := IngestAnimeData(o1.c, sid, d);
      && CatalogUnique(o2.c)
      && (!o1.raised ==> !o2.raised && SameRows(o1.c, o2.c))
  {
    IngestAnimeDataFacts(c, sid, d);
    var o1 := IngestAnimeData(c, sid, d);
    IngestAnimeDataFacts(o1.c, sid, d);
  }

  /** Once a prefix of the episode list raised, the rest of the list is not looked at. */
  lemma {:induction false} IngestEpisodesStopsAtRaise(c: Catalog, k: int, items: seq<EpisodeData>, j: nat)
    requires j <= |items| && IngestEpisodes(c, k, items[..j]).raised
    ensures IngestEpisodes(c, k, items) == IngestEpisodes(c, k, items[..j])
    decreases |items| - j
  {
    if j < |items| {
      var pre := items[..|items| - 1];
      assert pre[..j] == items[..j];
      IngestEpisodesStopsAtRaise(c, k, pre, j);
    } else {
      assert items[..j] == items;
    }
  }

  /** Once a prefix of the season list raised, the rest of the list is not looked at. */
  lemma {:induction false} IngestSeasonsStopsAtRaise(c: Catalog, sid: int, items: seq<SeasonData>, j: nat)
    requires j <= |items| && IngestSeasons(c, sid, items[..j]).raised
    ensures IngestSeasons(c, sid, items) == IngestSeasons(c, sid, items[..j])
    decreases |items| - j
  {
    if j < |items| {
      var pre := items[..|items| - 1];
      assert pre[..j] == items[..j];
      IngestSeasonsStopsAtRaise(c, sid, pre, j);
    } else {
      assert items[..j] == items;
    }
  }

  // ---------------------------------------------------------------------
  // The series part of the ingestion

  /** Python truthiness of optional bytes: neither `None` nor empty. */
  predicate TruthyBytes(b: Option<Bytes>) {
    b.Some? && |b.value| > 0
  }

  /** The key `get_or_create_anime(url, …)` lands on: the first series with the URL, else the next fresh key. */
  function SeriesKeyFor(t: map<int, AnimeSeries>, next: int, url: Option<string>): (k: int)
    ensures SeriesKeyByUrl(t, next, url).Some? ==> k in t
  {
    match SeriesKeyByUrl(t, next, url)
    case Some(k) => k
    case None => next
  }

  /** The series row the ingestion starts from: the stored one, or the one `get_or_create_anime` inserts. */
  function SeriesBefore(t: map<int, AnimeSeries>, next: int, d: AnimeData): AnimeSeries {
    match SeriesKeyByUrl(t, next, SeriesUrl(d))
    case Some(k) => t[k]
    case None => NewAnimeSeries.(seriesId := Some(next), titel := SeriesTitle(d), aniworldUrl := SeriesUrl(d))
  }

  /** `get_or_create_anime(url, titel)` on values, at server time `now`. */
  function GetOrCreateAnimeSpec(t: map<int, AnimeSeries>, next: int, now: Timestamp, url: Option<string>,
                                titel: Option<string>): Got<AnimeSeries> {
    match SeriesByUrl(t, next, url)
    case Some(a) => Got(a, t, next)
    case None =>
      var a := NewAnimeSeries.(titel := titel, aniworldUrl := url);
      var w := SaveSeries(t, next, now, a);
      Got(a.(seriesId := Some(w.id)), w.rows, w.next)
  }

  /**
   * get_or_create_anime returns the series stored under the URL as the
   * finder builds it, changing nothing, or else inserts exactly one new
   * series with that URL and title under the next key. Either way the
   * result carries the key SeriesKeyFor names and the URL, and looking the
   * URL up afterwards finds that key.
   */
  lemma GetOrCreateAnimeSpecFacts(t: map<int, AnimeSeries>, next: int, now: Timestamp, url: Option<string>,
                                  titel: Option<string>)
    requires SeriesKeyed(t, next)
    ensures var g := GetOrCreateAnimeSpec(t, next, now, url, titel);
      && SeriesKeyed(g.rows, g.next)
      && g.row.seriesId == Some(SeriesKeyFor(t, next, url)) && g.row.seriesId.value in g.rows
      && g.row.aniworldUrl == url && g.rows[g.row.seriesId.value].aniworldUrl == url
      && (url.Some? ==> SeriesKeyByUrl(g.rows, g.next, url) == g.row.seriesId)
    ensures var g := GetOrCreateAnimeSpec(t, next, now, url, titel);
      SeriesByUrl(t, next, url).Some? ==> g == Got(SeriesByUrl(t, next, url).value, t, next)
    ensures var g := GetOrCreateAnimeSpec(t, next, now, url, titel);
      SeriesByUrl(t, next, url).None? ==>
        && g.row == NewAnimeSeries.(seriesId := Some(next), titel := titel, aniworldUrl := url)
        && g.rows == t[next := InsertedSeries(g.row, next, now)] && g.next == next + 1
  {
    var g := GetOrCreateAnimeSpec(t, next, now, url, titel);
    if SeriesByUrl(t, next, url).Some? {
      var k := SeriesKeyByUrl(t, next, url).value;
      assert t[k].seriesId == Some(k);
    } else {
      var a := NewAnimeSeries.(titel := titel, aniworldUrl := url);
      SaveSeriesKeepsKeyed(t, next, now, a);
      if url.Some? {
        SaveNewSeriesThenFindByUrl(t, next, now, a);
      }
    }
  }

  /**
   * The series row after the ingestion, against the row it started from:
   * id, title and URL are kept; each of the seven metadata fields takes the
   * dictionary's value when its key is present; the columns the save does
   * not write are kept; the row is stamped; and the fetched cover is stored
   * when the series has a cover URL and the fetch answered.
   */
  ghost predicate SeriesIngested(before: AnimeSeries, after: AnimeSeries, d: AnimeData, cover: Option<Bytes>) {
    && after.seriesId == before.seriesId && after.titel == before.titel && after.aniworldUrl == before.aniworldUrl
    && after.beschreibung == Get(d.description, before.beschreibung)
    && after.coverUrl == Get(d.coverUrl, before.coverUrl)
    && after.originalTitel == Get(d.originalTitle, before.originalTitel)
    && after.erscheinungsjahr == Get(d.year, before.erscheinungsjahr)
    && after.status == Get(d.status, before.status)
    && after.studio == Get(d.studio, before.studio)
    && after.regisseur == Get(d.director, before.regisseur)
    && after.zielgruppe == before.zielgruppe && after.fsk == before.fsk
    && after.bewertung == before.bewertung && after.erstelltAm == before.erstelltAm
    && after.aktualisiertAm.Some?
    && after.coverData == (if TruthyStr(after.coverUrl) && cover.Some? then cover else before.coverData)
  }

  /**
   * The series half of `save_from_scraper_data` on values, from the table,
   * its counter and the clock `now`: `get_or_create_anime`, the metadata
   * overwrite and `save`, then `save_cover_data` when the series has a cover
   * URL, no cover in hand, and the download answered with `cover`.
   */
  function SeriesHalf(t: map<int, AnimeSeries>, next: int, now: Timestamp, d: AnimeData, cover: Option<Bytes>)
    : Write<AnimeSeries>
  {
    var g := GetOrCreateAnimeSpec(t, next, now, SeriesUrl(d), SeriesTitle(d));
    var saveTime := if SeriesByUrl(t, next, SeriesUrl(d)).Some? then now else now + 1;
    var anime := ApplyAnimeData(g.row, d);
    var w := SaveSeries(g.rows, g.next, saveTime, anime);
    if TruthyStr(anime.coverUrl) && !TruthyBytes(anime.coverData) && cover.Some?
    then Write(SetCover(w.rows, w.id, cover.value), w.next, w.id)
    else w
  }

  /**
   * The series table after the series half of the ingestion, against the
   * table before: exactly the row under the key `get_or_create_anime` lands
   * on is written (inserted when it was missing) as SeriesIngested says,
   * and afterwards the URL, when there is one, finds that row.
   */
  ghost predicate SeriesStored(t: map<int, AnimeSeries>, next: int, t': map<int, AnimeSeries>, next': int,
                               d: AnimeData, cover: Option<Bytes>) {
    var k := SeriesKeyFor(t, next, SeriesUrl(d));
    && k in t' && t'.Keys == t.Keys + {k}
    && SeriesIngested(SeriesBefore(t, next, d), t'[k], d, cover)
    && (forall j :: j in t && j != k ==> t'[j] == t[j])
    && next' == (if k in t then next else next + 1)
    && (SeriesUrl(d).Some? ==> SeriesKeyByUrl(t', next', SeriesUrl(d)) == Some(k))
  }

  /** What SeriesHalf does to the series table, as SeriesStored states it; the table stays keyed. */
  lemma SeriesHalfStored(t: map<int, AnimeSeries>, next: int, now: Timestamp, d: AnimeData, cover: Option<Bytes>)
    requires SeriesKeyed(t, next)
    ensures var w := SeriesHalf(t, next, now, d, cover);
      && SeriesKeyed(w.rows, w.next) && w.id == SeriesKeyFor(t, next, SeriesUrl(d))
      && SeriesStored(t, next, w.rows, w.next, d, cover)
  {
    if SeriesKeyByUrl(t, next, SeriesUrl(d)).Some? {
      SeriesHalfStoredFound(t, next, now, d, cover);
    } else {
      SeriesHalfStoredCreated(t, next, now, d, cover);
    }
  }

  /** SeriesHalfStored when the URL finds a stored series: that row is updated in place. */
  lemma SeriesHalfStoredFound(t: map<int, AnimeSeries>, next: int, now: Timestamp, d: AnimeData, cover: Option<Bytes>)
    requires SeriesKeyed(t, next) && SeriesKeyByUrl(t, next, SeriesUrl(d)).Some?
    ensures var w := SeriesHalf(t, next, now, d, cover);
      && SeriesKeyed(w.rows, w.next) && w.id == SeriesKeyFor(t, next, SeriesUrl(d))
      && SeriesStored(t, next, w.rows, w.next, d, cover)
  {
    var url := SeriesUrl(d);
    GetOrCreateAnimeSpecFacts(t, next, now, url, SeriesTitle(d));
    var k := SeriesKeyFor(t, next, url);
    var anime := ApplyAnimeData(Visible(t[k]), d);
    assert SaveSeries(t, next, now, anime).rows == t[k := UpdatedSeries(t[k], anime, now)];
    var w := SeriesHalf(t, next, now, d, cover);
    assert w.next == next && w.id == k;
    if url.Some? {
      SeriesKeyByUrlSameUrls(w.rows, t, next, url);
    }
  }

  /** SeriesHalfStored when the URL finds nothing: one row is inserted under the next key. */
  lemma SeriesHalfStoredCreated(t: map<int, AnimeSeries>, next: int, now: Timestamp, d: AnimeData, cover: Option<Bytes>)
    requires SeriesKeyed(t, next) && SeriesKeyByUrl(t, next, SeriesUrl(d)).None?
    ensures var w := SeriesHalf(t, next, now, d, cover);
      && SeriesKeyed(w.rows, w.next) && w.id == SeriesKeyFor(t, next, SeriesUrl(d))
      && SeriesStored(t, next, w.rows, w.next, d, cover)
  {
    var url := SeriesUrl(d);
    CreatedSeriesRow(t, next, now, d, cover);
    if url.Some? {
      GetOrCreateAnimeSpecFacts(t, next, now, url, SeriesTitle(d));
      var g := GetOrCreateAnimeSpec(t, next, now, url, SeriesTitle(d));
      var w := SeriesHalf(t, next, now, d, cover);
      SeriesKeyByUrlSameUrls(w.rows, g.rows, next + 1, url);
    }
  }

  /**
   * The rows SeriesHalf writes when the URL finds nothing: the table gains
   * the key `next`, whose row is the new series ingested, and keeps every
   * other row; the inserted row keeps the URL get_or_create_anime gave it.
   */
  lemma CreatedSeriesRow(t: map<int, AnimeSeries>, next: int, now: Timestamp, d: AnimeData, cover: Option<Bytes>)
    requires SeriesKeyed(t, next) && SeriesKeyByUrl(t, next, SeriesUrl(d)).None?
    ensures var g := GetOrCreateAnimeSpec(t, next, now, SeriesUrl(d), SeriesTitle(d));
      var w := SeriesHalf(t, next, now, d, cover);
      && SeriesKeyed(w.rows, w.next) && w.next == next + 1 && w.id == next
      && w.rows.Keys == g.rows.Keys && g.rows.Keys == t.Keys + {next} && g.next == next + 1
      && (forall j :: j in g.rows ==> w.rows[j].aniworldUrl == g.rows[j].aniworldUrl)
      && (forall j :: j in t ==> w.rows[j] == t[j])
      && SeriesIngested(SeriesBefore(t, next, d), w.rows[next], d, cover)
  {
    var url := SeriesUrl(d);
    GetOrCreateAnimeSpecFacts(t, next, now, url, SeriesTitle(d));
    var g := GetOrCreateAnimeSpec(t, next, now, url, SeriesTitle(d));
    var anime := ApplyAnimeData(g.row, d);
    var u := UpdatedSeries(g.rows[next], anime, now + 1);
    assert SaveSeries(g.rows, next + 1, now + 1, anime).rows == g.rows[next := u];
    assert SeriesBefore(t, next, d) == g.row;
    UpdatedRowIngested(g.row, g.rows[next], d, now + 1, cover);
  }

  /** The update of a freshly inserted series with the dictionary's fields, then its cover, is SeriesIngested. */
  lemma UpdatedRowIngested(before: AnimeSeries, row: AnimeSeries, d: AnimeData, now: Timestamp, cover: Option<Bytes>)
    requires row == before.(aktualisiertAm := row.aktualisiertAm) && before.coverData == None
    ensures var anime := ApplyAnimeData(before, d);
      var u := UpdatedSeries(row, anime, now);
      SeriesIngested(before, if TruthyStr(anime.coverUrl) && cover.Some? then u.(coverData := cover) else u, d, cover)
  {
  }

  /**
   * What one `save_from_scraper_data` call guarantees, from the tables
   * before (`t`, `next`, `c`) to the tables after (`t'`, `next'`, `c'`):
   * it raises exactly on a malformed dictionary; stored seasons and
   * episodes keep their natural keys and unique numbers stay unique; a run
   * that does not raise leaves everything the dictionary names stored; and
   * a run on tables that already hold all of it adds no row.
   */
  ghost predicate ScraperDataIngested(t: map<int, AnimeSeries>, next: int, c: Catalog,
                                      t': map<int, AnimeSeries>, next': int, c': Catalog, raised: bool, d: AnimeData) {
    var k := SeriesKeyFor(t, next, SeriesUrl(d));
    && (raised <==> !AnimeDataOk(d))
    && CatalogKept(c, c')
    && (CatalogUnique(c) ==> CatalogUnique(c'))
    && (!raised && SeriesUrl(d).Some? ==> Covered(t', next', c', d, k))
    && (Covered(t, next, c, d, k) && CatalogUnique(c) ==> SameRows(c, c') && t'.Keys == t.Keys && next' == next)
  }

  /** The series half and the catalogue fold together give ScraperDataIngested. */
  lemma IngestScraperDataFacts(t: map<int, AnimeSeries>, next: int, c: Catalog,
                               t': map<int, AnimeSeries>, next': int, c': Catalog, raised: bool,
                               d: AnimeData, cover: Option<Bytes>)
    requires SeriesKeyed(t, next) && CatalogKeyed(c)
    requires SeriesStored(t, next, t', next', d, cover)
    requires Outcome(c', raised) == IngestAnimeData(c, SeriesKeyFor(t, next, SeriesUrl(d)), d)
    ensures ScraperDataIngested(t, next, c, t', next', c', raised, d)
  {
    var k := SeriesKeyFor(t, next, SeriesUrl(d));
    IngestAnimeDataFacts(c, k, d);
  }

  /**
   * The contract of `save_from_scraper_data(d)` with cover download `cover`,
   * from the tables before to the tables after, with outcome `r`: the series
   * half as SeriesStored says; the series key returned, or TypeError raised;
   * the seasons and episodes as the IngestAnimeData fold computes them; and
   * ScraperDataIngested.
   */
  ghost predicate ScraperDataSaved(t: map<int, AnimeSeries>, next: int, c: Catalog,
                                   t': map<int, AnimeSeries>, next': int, c': Catalog,
                                   d: AnimeData, cover: Option<Bytes>, r: Result<int>) {
    var k := SeriesKeyFor(t, next, SeriesUrl(d));
    && SeriesStored(t, next, t', next', d, cover)
    && (r.Ok? ==> r.value == k) && (r.Raised? ==> r.exc == TypeError)
    && Outcome(c', r.Raised?) == IngestAnimeData(c, k, d)
    && ScraperDataIngested(t, next, c, t', next', c', r.Raised?, d)
  }

  /**
   * Two `save_from_scraper_data` calls with the same dictionary, whatever
   * the cover downloads answer: when the first returns an id and the
   * dictionary's URL is not None, the second returns the same id and adds
   * no series, no season and no episode.
   */
  lemma ScraperDataTwice(t: map<int, AnimeSeries>, next: int, c: Catalog,
                         t': map<int, AnimeSeries>, next': int, c': Catalog,
                         t'': map<int, AnimeSeries>, next'': int, c'': Catalog,
                         d: AnimeData, cover1: Option<Bytes>, cover2: Option<Bytes>, r1: Result<int>, r2: Result<int>)
    requires CatalogUnique(c) && SeriesUrl(d).Some?
    requires ScraperDataSaved(t, next, c, t', next', c', d, cover1, r1)
    requires ScraperDataSaved(t', next', c', t'', next'', c'', d, cover2, r2)
    requires r1.Ok?
    ensures r2 == r1
    ensures t''.Keys == t'.Keys && next'' == next' && SameRows(c', c'')
  {
    var k := SeriesKeyFor(t, next, SeriesUrl(d));
    assert Covered(t', next', c', d, k);
    assert SeriesKeyFor(t', next', SeriesUrl(d)) == k;
  }

  /**
   * A dictionary whose 'url' is None: `find_by_url(None)` compares with
   * `= NULL`, which matches no row, so every call inserts a new series
   * under the next key, however often the same dictionary is saved.
   */
  lemma ScraperDataWithoutUrlInserts(t: map<int, AnimeSeries>, next: int, c: Catalog,
                                     t': map<int, AnimeSeries>, next': int, c': Catalog,
                                     d: AnimeData, cover: Option<Bytes>, r: Result<int>)
    requires SeriesKeyed(t, next) && SeriesUrl(d).None?
    requires ScraperDataSaved(t, next, c, t', next', c', d, cover, r)
    ensures next !in t && t'.Keys == t.Keys + {next} && next' == next + 1
    ensures r.Ok? ==> r.value == next
  {
    assert SeriesKeyByUrl(t, next, None) == None;
  }

  ghost function CatalogOf(db: Database): Catalog
    reads db
  {
    Catalog(db.seasons, db.nextSeasonId, db.episodes, db.nextEpisodeId)
  }

  // ---------------------------------------------------------------------
  // AnimeService

  class AnimeService {
    const db: Database
    const animeRepo: AnimeRepository
    const seasonRepo: SeasonRepository
    const episodeRepo: EpisodeRepository

    /** The database is consistent and every repository works on it. */
    ghost predicate Valid()
      reads db
    {
      db.Valid() && animeRepo.db == db && seasonRepo.db == db && episodeRepo.db == db
    }

    constructor(db: Database)
      requires db.Valid()
      ensures this.db == db && Valid()
    {
      this.db := db;
      animeRepo := new AnimeRepository(db);
      seasonRepo := new SeasonRepository(db);
      episodeRepo := new EpisodeRepository(db);
    }

    /** `get_or_create_anime`; see GetOrCreateAnimeSpecFacts for what it does. */
    method GetOrCreateAnime(url: Option<string>, titel: Option<string>) returns (anime: AnimeSeries)
      requires Valid()
      modifies db`series, db`nextSeriesId, db`clock
      ensures Valid()
      ensures Got(anime, db.series, db.nextSeriesId) ==
              GetOrCreateAnimeSpec(old(db.series), old(db.nextSeriesId), old(db.clock), url, titel)
      ensures db.clock == old(db.clock) + if old(SeriesByUrl(db.series, db.nextSeriesId, url)).Some? then 0 else 1
    {
      var found := animeRepo.FindByUrl(url);
      if found.Some? {
        return found.value;
      }
      anime := NewAnimeSeries.(titel := titel, aniworldUrl := url);
      var id, saved := animeRepo.Save(anime);
      anime := saved;
    }

    /**
     * `get_or_create_season`: the stored season of the series with that
     * number, or a new one; see GetOrCreateSeasonSpecFacts for what that means.
     */
    method GetOrCreateSeason(seriesId: int, nummer: int, url: Option<string>) returns (season: Season)
      requires Valid()
      modifies db`seasons, db`nextSeasonId
      ensures Valid()
      ensures Got(season, db.seasons, db.nextSeasonId) ==
              GetOrCreateSeasonSpec(old(db.seasons), old(db.nextSeasonId), seriesId, nummer, url)
    {
      var seasons := seasonRepo.FindBySeriesId(seriesId);
      var i := ScanSeasons(seasons, nummer);
      if i < |seasons| {
        season := seasons[i];
        return;
      }
      var s := NewSeason.(seriesId := seriesId, staffelNummer := nummer, aniworldUrl := url);
      var id := seasonRepo.Save(s);
      season := s.(seasonId := Some(id));
    }

    /** `get_or_create_episode`: the same one level down; see GetOrCreateEpisodeSpecFacts. */
    method GetOrCreateEpisode(seasonId: int, nummer: int, url: Option<string>) returns (episode: Episode)
      requires Valid()
      modifies db`episodes, db`nextEpisodeId
      ensures Valid()
      ensures Got(episode, db.episodes, db.nextEpisodeId) ==
              GetOrCreateEpisodeSpec(old(db.episodes), old(db.nextEpisodeId), seasonId, nummer, url)
    {
      var episodes := episodeRepo.FindBySeasonId(seasonId);
      var i := ScanEpisodes(episodes, nummer);
      if i < |episodes| {
        episode := episodes[i];
        return;
      }
      var e := NewEpisode.(seasonId := seasonId, episodeNummer := nummer, aniworldUrl := url);
      var id, saved := episodeRepo.Save(e);
      episode := saved;
    }

    method GetSeasonsByAnimeId(seriesId: int) returns (seasonList: seq<Season>)
      requires Valid()
      ensures seasonList == SeasonsOfSeries(db.seasons, db.nextSeasonId, seriesId)
    {
      seasonList := seasonRepo.FindByAnimeId(seriesId);
    }

    method GetAnimeByUrl(url: Option<string>) returns (r: Option<AnimeSeries>)
      requires Valid()
      ensures r == SeriesByUrl(db.series, db.nextSeriesId, url)
    {
      r := animeRepo.FindByUrl(url);
    }

    method FindAllAnimes() returns (animes: seq<AnimeSeries>)
      requires Valid()
      ensures animes == VisibleAll(SeriesRowsByTitel(db.series, db.nextSeriesId))
    {
      animes := animeRepo.FindAll();
    }

    method GetEpisodeByUrl(url: Option<string>) returns (r: Option<Episode>)
      requires Valid()
      ensures r == EpisodeByUrl(db.episodes, db.nextEpisodeId, url)
    {
      r := episodeRepo.FindByUrl(url);
    }

    /** One pass of the episode loop of `save_from_scraper_data`. */
    method SaveEpisodeEntry(seasonKey: int, ed: EpisodeData) returns (raised: bool)
      requires Valid()
      modifies db`episodes, db`nextEpisodeId
      ensures Valid()
      ensures Outcome(CatalogOf(db), raised) == IngestEpisode(old(CatalogOf(db)), seasonKey, ed)
    {
      var m := NumberOf(ed.number);
      if m.None? {
        // `None > 0` raises TypeError
        return true;
      }
      if m.value > 0 {
        var episode := GetOrCreateEpisode(seasonKey, m.value, Get(ed.url, None));
        episode := ApplyEpisodeData(episode, ed);
        var id, saved := episodeRepo.Save(episode);
      }
      return false;
    }

    /** The episode loop of `save_from_scraper_data`; true when an entry raised. */
    method SaveEpisodeList(seasonKey: int, items: seq<EpisodeData>) returns (raised: bool)
      requires Valid()
      modifies db`episodes, db`nextEpisodeId
      ensures Valid()
      ensures Outcome(CatalogOf(db), raised) == IngestEpisodes(old(CatalogOf(db)), seasonKey, items)
    {
      ghost var c0 := CatalogOf(db);
      var j := 0;
      while j < |items|
        invariant 0 <= j <= |items| && Valid()
        invariant Outcome(CatalogOf(db), false) == IngestEpisodes(c0, seasonKey, items[..j])
      {
        raised := SaveEpisodeEntry(seasonKey, items[j]);
        assert items[..j + 1][..j] == items[..j];
        if raised {
          IngestEpisodesStopsAtRaise(c0, seasonKey, items, j + 1);
          return;
        }
        j := j + 1;
      }
      assert items[..j] == items;
      raised := false;
    }

    /** One pass of the season loop of `save_from_scraper_data`. */
    method SaveSeasonEntry(seriesId: int, sd: SeasonData) returns (raised: bool)
      requires Valid()
      modifies db`seasons, db`nextSeasonId, db`episodes, db`nextEpisodeId
      ensures Valid()
      ensures Outcome(CatalogOf(db), raised) == IngestSeason(old(CatalogOf(db)), seriesId, sd)
    {
      var n := NumberOf(sd.number);
      if n.None? {
        // `None > 0` raises TypeError
        return true;
      }
      if n.value <= 0 {
        return false;
      }
      var season := GetOrCreateSeason(seriesId, n.value, Get(sd.url, None));
      season := ApplySeasonData(season, sd);
      var id := seasonRepo.Save(season);
      if sd.episodes.Absent? {
        return false;
      }
      if sd.episodes.value.None? {
        // `len(None)` raises TypeError
        return true;
      }
      raised := SaveEpisodeList(season.seasonId.GetOr(0), sd.episodes.value.value);
    }

    /** The season loop of `save_from_scraper_data`; true when an entry raised. */
    method SaveSeasonList(seriesId: int, items: seq<SeasonData>) returns (raised: bool)
      requires Valid()
      modifies db`seasons, db`nextSeasonId, db`episodes, db`nextEpisodeId
      ensures Valid()
      ensures Outcome(CatalogOf(db), raised) == IngestSeasons(old(CatalogOf(db)), seriesId, items)
    {
      ghost var c0 := CatalogOf(db);
      var j := 0;
      while j < |items|
        invariant 0 <= j <= |items| && Valid()
        invariant Outcome(CatalogOf(db), false) == IngestSeasons(c0, seriesId, items[..j])
      {
        raised := SaveSeasonEntry(seriesId, items[j]);
        assert items[..j + 1][..j] == items[..j];
        if raised {
          IngestSeasonsStopsAtRaise(c0, seriesId, items, j + 1);
          return;
        }
        j := j + 1;
      }
      assert items[..j] == items;
      raised := false;
    }

    /**
     * The series half of `save_from_scraper_data`: fetch or create the series
     * by its URL, overwrite its metadata from the keys present, save it, and
     * store the cover when it has a cover URL and no cover yet (`cover` is the
     * body of a 200 response, `None` for any other status or a failed request).
     */
    method SaveSeriesData(data: AnimeData, cover: Option<Bytes>) returns (seriesId: int)
      requires Valid()
      modifies db`series, db`nextSeriesId, db`clock
      ensures Valid()
      ensures Write(db.series, db.nextSeriesId, seriesId) ==
              SeriesHalf(old(db.series), old(db.nextSeriesId), old(db.clock), data, cover)
    {
      ghost var g := GetOrCreateAnimeSpec(db.series, db.nextSeriesId, db.clock, SeriesUrl(data), SeriesTitle(data));
      ghost var saveTime := if SeriesByUrl(db.series, db.nextSeriesId, SeriesUrl(data)).Some? then db.clock else db.clock + 1;
      var anime := GetOrCreateAnime(SeriesUrl(data), SeriesTitle(data));
      assert anime == g.row && db.series == g.rows && db.nextSeriesId == g.next && db.clock == saveTime;
      anime := ApplyAnimeData(anime, data);
      var id, saved := animeRepo.Save(anime);
      ghost var w := SaveSeries(g.rows, g.next, saveTime, anime);
      assert db.series == w.rows && db.nextSeriesId == w.next && id == w.id;
      anime := saved;
      if TruthyStr(anime.coverUrl) && !TruthyBytes(anime.coverData) {
        if cover.Some? {
          var ok := animeRepo.SaveCoverData(anime.seriesId.value, cover.value);
        }
      }
      seriesId := anime.seriesId.value;
    }

    /**
     * `save_from_scraper_data(data)`: the series half, then every season and
     * episode entry. Returns the series id, or raises TypeError on a malformed
     * dictionary after having written everything before the malformed entry.
     * Run on a database that already holds the dictionary, it adds no row.
     */
    method SaveFromScraperData(data: AnimeData, cover: Option<Bytes>) returns (r: Result<int>)
      requires Valid()
      modifies db`series, db`nextSeriesId, db`clock, db`seasons, db`nextSeasonId, db`episodes, db`nextEpisodeId
      ensures Valid()
      ensures ScraperDataSaved(old(db.series), old(db.nextSeriesId), old(CatalogOf(db)),
                               db.series, db.nextSeriesId, CatalogOf(db), data, cover, r)
    {
      ghost var k := SeriesKeyFor(db.series, db.nextSeriesId, SeriesUrl(data));
      SeriesHalfStored(db.series, db.nextSeriesId, db.clock, data, cover);
      var seriesId := SaveSeriesData(data, cover);
      r := Ok(seriesId);
      if data.seasons.Present? {
        if data.seasons.value.None? {
          // `len(None)` raises TypeError
          r := Raised(TypeError);
        } else {
          var raised := SaveSeasonList(seriesId, data.seasons.value.value);
          if raised {
            r := Raised(TypeError);
          }
        }
      }
      IngestScraperDataFacts(old(db.series), old(db.nextSeriesId), old(CatalogOf(db)),
                             db.series, db.nextSeriesId, CatalogOf(db), r.Raised?, data, cover);
    }
  }
}
