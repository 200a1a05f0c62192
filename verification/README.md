# AniWorld-scrapy database core, modelled in Dafny

AniWorld-scrapy scrapes anime series from aniworld.to and keeps a MySQL
catalogue of what it found and downloaded. The catalogue has four tables:

- `anime_series` (one row per series);
- `seasons` (its seasons);
- `episoden` (their episodes);
- `downloads` (a ledger of downloads).

This project models the layers that sit on top of that catalogue.

- **The records** (`models.dfy`): `AnimeSeries`, `Season`, `Episode` and `Download`, with their defaults.
- **The repositories** (`repositories.dfy`): one class per table.
  - The tables are maps from primary key to row in one shared `Database` object. It also holds the AUTO_INCREMENT counters and a clock for `download_datum` and `aktualisiert_am`.
  - Each SQL statement becomes a function on those maps.
  - `ORDER BY` becomes a stable sort over the rows in key order (`query.dfy`).
- **The anime service** (`services.dfy`): get-or-create by natural key.
  - A series is found by its URL, a season by series and season number, an episode by season and episode number.
  - The ingestion of a scraped dictionary (`save_from_scraper_data`) is modelled as a fold over its seasons and episodes. That fold raises TypeError exactly where the Python code would.
- **The download service** (`download_service.dfy`): recording a download, updating its status, and listing the active ones. It also covers the file-format table.
- **The integration facade** (`integration.dfy`): exceptions become sentinel values.
- **The pipeline** (`pipeline.dfy`): a URL-to-id cache in front of the integration facade.
- **The configuration** (`config.dfy`): `DatabaseConfig`, made of:
  - the defaults;
  - the search for the INI file;
  - the override by the `[database]` section, then by environment variables;
  - the `int()` and boolean conversions;
  - the masked and connection views.
- **Helpers from the command-line module** (`cli.dfy`):
  - `validate_link`;
  - `get_anime_title`;
  - the URL built by `handle_query`;
  - the extractor partition of `check_other_extractors`;
  - the language codes;
  - `format_anime_title`.

Code that changes state in place is modelled with classes:

- the `Database` tables;
- the pipeline cache;
- `DatabaseConfig.config`;
- `args.link`;
- the singletons.

Each method's `ensures` ties the new state to a specification function of the old state. Properties are proved as lemmas about those functions.

## Model

| member | source | states |
|---|---|---|
| Models.Defaults | src/aniworld/database/models.py:11-77 | A fresh record has no id, a series has title "" and status 'laufend', a download has status 'geplant' and no VPN, and every other optional column is unset |
| Repositories.ExecuteUpdate | src/aniworld/database/repositories.py:44-63 | `_execute_update` answers the last inserted id when there is one, otherwise the affected row count |
| Repositories.Matched | src/aniworld/database/repositories.py:266-277 | A DELETE by primary key removes one row exactly when the key is stored, otherwise none |
| Repositories.CoverChanged | src/aniworld/database/repositories.py:247-264 | The row count of the cover UPDATE is the number of rows it changed: one exactly when the key is stored and its cover differs from the new bytes |
| Repositories.Visible | src/aniworld/database/repositories.py:140-174 | A series read back carries id, title, URLs and status of the row, and none of the columns the SELECT does not list (cover data, audience, age rating, rating, creation time) |
| Repositories.SeriesById | src/aniworld/database/repositories.py:140-174 | find_by_id finds a series exactly when its key is stored |
| Repositories.SeriesByUrl | src/aniworld/database/repositories.py:176-210 | A series find_by_url returns has the URL, which is not None, and no cover data; no answer means no stored series has the URL |
| Repositories.SeriesKeyByUrl | src/aniworld/database/repositories.py:176-210 | The series a URL finds has that URL and no smaller key has it; no answer means no stored series has the URL |
| Repositories.VisibleAll | src/aniworld/database/repositories.py:212-245 | find_all reads every listed row through the same column list, in order |
| Repositories.SeriesTitelOrder | src/aniworld/database/repositories.py:224 | Ordering by title (NULL first) is total and transitive, so the sorted result is well defined |
| Repositories.SaveSeries | src/aniworld/database/repositories.py:73-138 | `AnimeRepository.save` on the table: a missing or non-positive id inserts the series under the counter value and advances the counter, any other id rewrites nine columns of that row, stamped; SaveSeriesEffect and SaveSeriesThenFindById state its properties |
| Repositories.SaveSeriesKeepsKeyed | src/aniworld/database/repositories.py:73-138 | Saving a series keeps every row stored under its own key below the AUTO_INCREMENT counter and returns a positive id |
| Repositories.SaveSeriesEffect | src/aniworld/database/repositories.py:73-138 | A series without an id is inserted under the next counter value, which was free; one with an id is updated in place, keeping its cover; every other row is unchanged |
| Repositories.SaveSeriesThenFindById | src/aniworld/database/repositories.py:73-174 | After save, find_by_id on the returned id yields the saved series stamped with the update time, as the SELECT shows it |
| Repositories.SaveNewSeriesThenFindByUrl | src/aniworld/database/repositories.py:73-210 | After inserting a series whose URL was unknown, find_by_url answers that series and its key |
| Repositories.SeasonById | src/aniworld/database/repositories.py:323-347 | A season is found by id exactly when its key is stored |
| Repositories.SeasonByUrl | src/aniworld/database/repositories.py:388-412 | A season found by URL is a stored row with that URL; no answer means no stored season has it |
| Repositories.SeasonNumberOrder | src/aniworld/database/repositories.py:359 | Ordering by season number is total and transitive |
| Repositories.SeasonsOfSeries | src/aniworld/database/repositories.py:349-374 | The seasons listed for a series are exactly its stored seasons, sorted by season number |
| Repositories.SaveSeason | src/aniworld/database/repositories.py:283-321 | `SeasonRepository.save` on the table: a truthy id rewrites the whole row, anything else inserts under the counter value; SaveSeasonEffect states its properties |
| Repositories.SaveSeasonKeepsKeyed | src/aniworld/database/repositories.py:283-321 | Saving a season keeps the table keyed |
| Repositories.SaveSeasonEffect | src/aniworld/database/repositories.py:283-321 | A season with a falsy id is inserted under a fresh key, otherwise its row is rewritten; nothing else changes |
| Repositories.EpisodeById | src/aniworld/database/repositories.py:480-510 | An episode is found by id exactly when its key is stored |
| Repositories.EpisodeByUrl | src/aniworld/database/repositories.py:512-542 | An episode found by URL is a stored row with that URL; no answer means none has it |
| Repositories.EpisodeNumberOrder | src/aniworld/database/repositories.py:544-577 | Ordering by episode number is total and transitive |
| Repositories.EpisodesOfSeason | src/aniworld/database/repositories.py:544-577 | The episodes listed for a season are exactly its stored episodes, sorted by episode number |
| Repositories.SaveEpisode | src/aniworld/database/repositories.py:422-478 | `EpisodeRepository.save` on the table: a missing or non-positive id inserts under the counter value, any other rewrites the row; SaveEpisodeEffect and SaveEpisodeThenFindById state its properties |
| Repositories.SaveEpisodeKeepsKeyed | src/aniworld/database/repositories.py:422-478 | Saving an episode keeps the table keyed and returns a positive id |
| Repositories.SaveEpisodeEffect | src/aniworld/database/repositories.py:422-478 | A new episode is inserted under a fresh key, an existing one rewritten; nothing else changes |
| Repositories.SaveEpisodeThenFindById | src/aniworld/database/repositories.py:422-510 | After save, find_by_id on the returned id yields the saved episode |
| Repositories.DownloadById | src/aniworld/database/repositories.py:647-682 | A download is found by id exactly when its key is stored |
| Repositories.DatumOrders | src/aniworld/database/repositories.py:694-729 | Ascending and descending ordering by download date are total and transitive |
| Repositories.DownloadsOfEpisode | src/aniworld/database/repositories.py:684-720 | The downloads of an episode are exactly its stored downloads, newest first |
| Repositories.ActiveDownloads | src/aniworld/database/repositories.py:722-755 | The active downloads are exactly the stored ones in status 'geplant' or 'läuft', oldest first |
| Repositories.SaveDownload | src/aniworld/database/repositories.py:596-645 | `DownloadRepository.save` on the ledger: a truthy id rewrites every column but the date, anything else inserts under the counter value, dated with the clock as the assumed `download_datum` column default; SaveDownloadEffect states its properties |
| Repositories.SaveDownloadKeepsKeyed | src/aniworld/database/repositories.py:596-645 | Saving a download keeps the ledger keyed, with dates below the clock |
| Repositories.SaveDownloadEffect | src/aniworld/database/repositories.py:596-645 | A new download is inserted under a fresh key and dated with the clock (the assumed column default); an existing one is rewritten, keeping its date; nothing else changes |
| Repositories.SetCover | src/aniworld/database/repositories.py:247-264 | The cover UPDATE keeps the key set and every other row, and gives the row under the key the new bytes without changing what the finders show of it |
| Repositories.SetCoverInvisible | src/aniworld/database/repositories.py:247-264 | Storing cover bytes changes nothing that find_by_id or find_by_url shows |
| Repositories.Database.constructor | src/aniworld/database/repositories.py:22-42 | The catalogue starts empty and keyed |
| Repositories.AnimeRepository.Save | src/aniworld/database/repositories.py:73-138 | The tables after save are those SaveSeries computes; a new series gets the counter value, an existing one keeps its id |
| Repositories.AnimeRepository.FindById | src/aniworld/database/repositories.py:140-174 | The stored row under the id, as the SELECT shows it |
| Repositories.AnimeRepository.FindByUrl | src/aniworld/database/repositories.py:176-210 | The first series with the URL; None exactly when no stored series has it |
| Repositories.AnimeRepository.FindAll | src/aniworld/database/repositories.py:212-245 | Every stored series and nothing else, sorted by title |
| Repositories.AnimeRepository.SaveCoverData | src/aniworld/database/repositories.py:247-264 | The cover bytes of that row are replaced; true exactly when the row exists and held other bytes, since the UPDATE reports changed rows |
| Repositories.AnimeRepository.Delete | src/aniworld/database/repositories.py:266-277 | The row is removed; true exactly when it existed |
| Repositories.SeasonRepository.Save | src/aniworld/database/repositories.py:283-321 | The tables after save are those SaveSeason computes |
| Repositories.SeasonRepository.FindById | src/aniworld/database/repositories.py:323-347 | The stored season under the id |
| Repositories.SeasonRepository.FindBySeriesId | src/aniworld/database/repositories.py:349-374 | Exactly the seasons of the series, sorted by number |
| Repositories.SeasonRepository.FindByAnimeId | src/aniworld/database/repositories.py:376-386 | The same list as find_by_series_id |
| Repositories.SeasonRepository.FindByUrl | src/aniworld/database/repositories.py:388-412 | A season with the URL; None exactly when none has it |
| Repositories.EpisodeRepository.Save | src/aniworld/database/repositories.py:422-478 | The tables after save are those SaveEpisode computes |
| Repositories.EpisodeRepository.FindById | src/aniworld/database/repositories.py:480-510 | The stored episode under the id |
| Repositories.EpisodeRepository.FindByUrl | src/aniworld/database/repositories.py:512-542 | An episode with the URL; None exactly when none has it |
| Repositories.EpisodeRepository.FindBySeasonId | src/aniworld/database/repositories.py:544-577 | Exactly the episodes of the season, sorted by number |
| Repositories.EpisodeRepository.Delete | src/aniworld/database/repositories.py:579-590 | The row is removed; true exactly when it existed |
| Repositories.DownloadRepository.Save | src/aniworld/database/repositories.py:596-645 | The ledger after save is the one SaveDownload computes |
| Repositories.DownloadRepository.FindById | src/aniworld/database/repositories.py:647-682 | The stored download under the id |
| Repositories.DownloadRepository.FindByEpisodeId | src/aniworld/database/repositories.py:684-720 | Exactly the downloads of the episode, newest first |
| Repositories.DownloadRepository.FindActiveDownloads | src/aniworld/database/repositories.py:722-755 | Exactly the planned or running downloads, oldest first |
| Query.Filter | src/aniworld/database/repositories.py:212-245 | A WHERE clause keeps exactly the rows that satisfy it |
| Query.Sort | src/aniworld/database/repositories.py:224 | ORDER BY returns a permutation of its rows |
| Query.SortSorted | src/aniworld/database/repositories.py:224 | ORDER BY with a total, transitive order returns its rows sorted |
| Query.Select | src/aniworld/database/repositories.py:212-245 | A SELECT with WHERE returns exactly the stored rows that satisfy it |
| Query.SelectSorted | src/aniworld/database/repositories.py:212-245 | A SELECT with ORDER BY returns them sorted |
| Services.ProviderId | src/aniworld/database/services.py:26-45 | Provider ids are 1 to 6 for the six known hosters, 0 for any other name |
| Services.LanguageId | src/aniworld/database/services.py:48-64 | Language ids are 1 to 3 for the three known languages, 0 for any other name |
| Services.LookupsInjective | src/aniworld/database/services.py:26-64 | Two names with the same non-zero provider (or language) id are the same name |
| Services.ApplyAnimeDataOverwritesPresentKeys | src/aniworld/database/services.py:214-220 | Each of the seven metadata fields takes the dictionary's value when its key is present, even None, and keeps its value otherwise; no other column changes |
| Services.ApplySeasonDataOverwritesPresentKeys | src/aniworld/database/services.py:251-255 | Title, description, year and episode count take the dictionary's value when present; keys and URL stay |
| Services.ApplyEpisodeDataOverwritesPresentKeys | src/aniworld/database/services.py:274-278 | Title, description, duration and air date take the dictionary's value when present; keys and URL stay |
| Services.FirstSeasonNumbered | src/aniworld/database/services.py:109-112 | The scan for a season number stops at the first match and passes only non-matches |
| Services.FirstEpisodeNumbered | src/aniworld/database/services.py:136-139 | The scan for an episode number stops at the first match and passes only non-matches |
| Services.ScanSeasons | src/aniworld/database/services.py:109-112 | The loop over a series' seasons finds the first season with the number |
| Services.ScanEpisodes | src/aniworld/database/services.py:136-139 | The loop over a season's episodes finds the first episode with the number |
| Services.ListedSeasonIsRow | src/aniworld/database/services.py:96-121 | A season the lookup lists is a stored row of that series under its own key |
| Services.UnlistedSeasonIsFree | src/aniworld/database/services.py:96-121 | When no listed season has the number, the series has no season with it |
| Services.ListedEpisodeIsRow | src/aniworld/database/services.py:123-148 | An episode the lookup lists is a stored row of that season under its own key |
| Services.UnlistedEpisodeIsFree | src/aniworld/database/services.py:123-148 | When no listed episode has the number, the season has no episode with it |
| Services.InsertFreshSeason | src/aniworld/database/services.py:114-121 | Inserting a season whose number is new keeps (series, number) unique |
| Services.InsertFreshEpisode | src/aniworld/database/services.py:141-148 | Inserting an episode whose number is new keeps (season, number) unique |
| Services.RewriteSeason | src/aniworld/database/services.py:251-256 | Rewriting a season under its key with the same series and number keeps uniqueness |
| Services.RewriteEpisode | src/aniworld/database/services.py:274-279 | Rewriting an episode under its key with the same season and number keeps uniqueness |
| Services.GetOrCreateAnimeSpec | src/aniworld/database/services.py:75-94 | `get_or_create_anime` on the table: the series the URL finds, else a new series with URL and title saved; GetOrCreateAnimeSpecFacts states its properties |
| Services.GetOrCreateAnimeSpecFacts | src/aniworld/database/services.py:75-94 | get_or_create_anime returns the series the URL finds without writing, or inserts a new series with that URL and title; afterwards the URL finds the returned row |
| Services.GetOrCreateSeasonSpec | src/aniworld/database/services.py:96-121 | `get_or_create_season` on the table: the first of the series' seasons, in number order, with the number, else a new season saved; GetOrCreateSeasonSpecFacts and GetOrCreateSeasonSpecInserts state its properties |
| Services.GetOrCreateSeasonSpecFacts | src/aniworld/database/services.py:96-121 | get_or_create_season returns a stored season with the series and number, writes nothing when one existed, and keeps (series, number) unique |
| Services.GetOrCreateSeasonSpecInserts | src/aniworld/database/services.py:114-121 | When the number is missing, exactly one default season with it is inserted under the next key |
| Services.GetOrCreateEpisodeSpec | src/aniworld/database/services.py:123-148 | `get_or_create_episode` on the table: the first of the season's episodes with the number, else a new episode saved; GetOrCreateEpisodeSpecFacts and GetOrCreateEpisodeSpecInserts state its properties |
| Services.GetOrCreateEpisodeSpecFacts | src/aniworld/database/services.py:123-148 | get_or_create_episode returns a stored episode with the season and number, writes nothing when one existed, and keeps (season, number) unique |
| Services.GetOrCreateEpisodeSpecInserts | src/aniworld/database/services.py:141-148 | When the number is missing, exactly one default episode with it is inserted under the next key |
| Services.CatalogKeptTransitive | src/aniworld/database/services.py:237-283 | Keeping the natural keys of stored rows composes across steps |
| Services.IngestEpisode | src/aniworld/database/services.py:262-279 | One episode entry raises exactly when its number is null, never touches the seasons, and changes nothing when it raises or its number is not positive |
| Services.IngestEpisodeStep | src/aniworld/database/services.py:259-279 | One episode entry with a number is get-or-created, overwritten with the entry's fields and saved, without raising |
| Services.IngestEpisodeKeeps | src/aniworld/database/services.py:259-279 | One episode entry keeps the catalogue keyed and unique, leaves the seasons alone, and raises exactly when its number is null (a missing number reads as 0 and the entry is skipped) |
| Services.IngestEpisodeCovers | src/aniworld/database/services.py:259-279 | After an episode entry that does not raise, the season holds an episode with that number and those fields |
| Services.IngestEpisodeIdempotent | src/aniworld/database/services.py:259-279 | Ingesting an episode entry that is already stored adds no row |
| Services.IngestEpisodesKeeps | src/aniworld/database/services.py:259-279 | The episodes loop keeps the catalogue keyed and unique and leaves the seasons alone |
| Services.IngestEpisodesRaises | src/aniworld/database/services.py:259-279 | The episodes loop raises exactly when some entry has a null number |
| Services.IngestEpisodesCovers | src/aniworld/database/services.py:259-279 | After the episodes loop without a raise, every entry is stored |
| Services.IngestEpisodesIdempotent | src/aniworld/database/services.py:259-279 | The episodes loop over entries that are all stored adds no row |
| Services.IngestEpisodesStopsAtRaise | src/aniworld/database/services.py:259-279 | Once an entry raises, the entries after it have no effect |
| Services.IngestSeason | src/aniworld/database/services.py:239-283 | One season entry with a null number raises and changes nothing; one whose number is not positive is skipped without a change |
| Services.IngestSeasonStep | src/aniworld/database/services.py:237-258 | One season entry is get-or-created, overwritten and saved; a null episode list then raises, else its episodes are ingested |
| Services.IngestSeasonSaves | src/aniworld/database/services.py:237-258 | The saved season row belongs to the series and has the entry's number, and the catalogue stays keyed and unique |
| Services.IngestSeasonKeeps | src/aniworld/database/services.py:237-283 | One season entry keeps the catalogue keyed and unique |
| Services.IngestSeasonRaises | src/aniworld/database/services.py:237-283 | One season entry raises exactly when its number is null, or its number is positive and either its episode list is null or one of its episodes has a null number; a missing number reads as 0 and the entry is skipped |
| Services.IngestSeasonCovers | src/aniworld/database/services.py:237-283 | After a season entry that does not raise, the season and all its episodes are stored |
| Services.IngestSeasonIdempotent | src/aniworld/database/services.py:237-283 | Ingesting a season entry that is already stored adds no row |
| Services.IngestSeasonsKeeps | src/aniworld/database/services.py:237-283 | The seasons loop keeps the catalogue keyed and unique |
| Services.IngestSeasonsRaises | src/aniworld/database/services.py:237-283 | The seasons loop raises exactly when some season entry is malformed |
| Services.IngestSeasonsCovers | src/aniworld/database/services.py:237-283 | After the seasons loop without a raise, every season and episode named is stored |
| Services.IngestSeasonsIdempotent | src/aniworld/database/services.py:237-283 | The seasons loop over entries that are all stored adds no row |
| Services.IngestSeasonsStopsAtRaise | src/aniworld/database/services.py:237-283 | Once a season entry raises, the later ones have no effect |
| Services.IngestAnimeData | src/aniworld/database/services.py:236-283 | The seasons part of `save_from_scraper_data`: no 'seasons' key does nothing, a null list raises at len(), otherwise the seasons loop; IngestAnimeDataFacts states its properties |
| Services.IngestAnimeDataFacts | src/aniworld/database/services.py:195-285 | The catalogue half of save_from_scraper_data keeps keys and uniqueness, raises exactly for a malformed dictionary, stores everything otherwise, and adds nothing when all is stored |
| Services.IngestTwiceAddsNothing | src/aniworld/database/services.py:195-285 | Ingesting the same dictionary twice: the second run does not raise and adds no row |
| Services.SeriesKeyFor | src/aniworld/database/services.py:75-94 | The key get_or_create_anime lands on is a stored one when the URL is known |
| Services.SeriesIngested | src/aniworld/database/services.py:214-233 | The series row after the ingestion: id, title and URL kept, the seven metadata fields taken from the dictionary when present, the other columns kept, stamped, and the fetched cover stored when there is a cover URL; SeriesHalfStored proves the series half meets it |
| Services.SeriesHalfStored | src/aniworld/database/services.py:208-234 | The series half writes exactly the row under the URL's key: inserted when new, the metadata overwritten, stamped, the fetched cover stored, and afterwards the URL finds it |
| Services.SeriesHalfStoredFound | src/aniworld/database/services.py:208-234 | The same, when the URL already finds a series |
| Services.SeriesHalfStoredCreated | src/aniworld/database/services.py:208-234 | The same, when the URL finds no series |
| Services.SeriesHalf | src/aniworld/database/services.py:208-234 | The series part of `save_from_scraper_data` on the table: get_or_create_anime, the metadata overwrite, save, and the fetched cover stored when the series has a cover URL and no cover in hand; SeriesHalfStored states its properties |
| Services.IngestScraperDataFacts | src/aniworld/database/services.py:195-285 | Series half and catalogue fold together: a raise exactly for a malformed dictionary, everything named stored otherwise, natural keys kept unique, and no new row for a dictionary already stored |
| Services.ScraperDataTwice | src/aniworld/database/services.py:195-285 | Two save_from_scraper_data calls with the same dictionary whose URL is not None: when the first returns an id, the second returns the same id and adds no series, season or episode, whatever the cover downloads answer |
| Services.ScraperDataWithoutUrlInserts | src/aniworld/database/services.py:86-92 | With 'url': None the URL lookup matches nothing, so every call inserts a new series under the next key and returns it |
| Services.AnimeService.constructor | src/aniworld/database/services.py:67-73 | The service works on the shared catalogue |
| Services.AnimeService.GetOrCreateAnime | src/aniworld/database/services.py:75-94 | The tables and the series returned are those GetOrCreateAnimeSpec computes |
| Services.AnimeService.GetOrCreateSeason | src/aniworld/database/services.py:96-121 | The tables and the season returned are those GetOrCreateSeasonSpec computes |
| Services.AnimeService.GetOrCreateEpisode | src/aniworld/database/services.py:123-148 | The tables and the episode returned are those GetOrCreateEpisodeSpec computes |
| Services.AnimeService.GetSeasonsByAnimeId | src/aniworld/database/services.py:150-160 | The seasons of the series, sorted by number |
| Services.AnimeService.GetAnimeByUrl | src/aniworld/database/services.py:162-172 | The series the URL finds |
| Services.AnimeService.FindAllAnimes | src/aniworld/database/services.py:174-181 | Every series, by title |
| Services.AnimeService.GetEpisodeByUrl | src/aniworld/database/services.py:183-193 | The episode the URL finds |
| Services.AnimeService.SaveEpisodeEntry | src/aniworld/database/services.py:259-279 | One pass of the episodes loop changes the catalogue as IngestEpisode says |
| Services.AnimeService.SaveEpisodeList | src/aniworld/database/services.py:259-279 | The episodes loop changes the catalogue as IngestEpisodes says |
| Services.AnimeService.SaveSeasonEntry | src/aniworld/database/services.py:237-283 | One pass of the seasons loop changes the catalogue as IngestSeason says |
| Services.AnimeService.SaveSeasonList | src/aniworld/database/services.py:237-283 | The seasons loop changes the catalogue as IngestSeasons says |
| Services.AnimeService.SaveSeriesData | src/aniworld/database/services.py:208-234 | The series table after the series half is the one SeriesHalf computes |
| Services.AnimeService.SaveFromScraperData | src/aniworld/database/services.py:195-285 | The series key is returned, or TypeError raised, and the tables change as ScraperDataSaved states |
| DownloadServices.LastIndexOf | src/aniworld/database/services.py:449 | rfind: the last position of the character, -1 when absent |
| DownloadServices.Extension | src/aniworld/database/services.py:449 | POSIX os.path.splitext (posixpath): the suffix from the last dot of the last path component after the last '/', or empty |
| DownloadServices.FileFormat | src/aniworld/database/services.py:436-461 | A format is returned exactly for a non-empty path whose lower-cased extension is one of the seven known; it is one of MP4, MKV, AVI, MOV, WMV, FLV, WEBM |
| DownloadServices.FormatIsExtensionInCapitals | src/aniworld/database/services.py:451-459 | Each known extension maps to its own name in capitals |
| DownloadServices.ExtensionIgnoresCase | src/aniworld/database/services.py:449 | Paths equal up to case have extensions equal up to case |
| DownloadServices.FileFormatIgnoresCase | src/aniworld/database/services.py:436-461 | Paths equal up to case get the same format |
| DownloadServices.FileFormatOfName | src/aniworld/database/services.py:436-461 | A plain file name followed by a known extension, in any case, gets that extension's format |
| DownloadServices.DownloadRow | src/aniworld/database/services.py:336-355 | The `Download` record_download builds: status 'abgeschlossen' exactly with a truthy local path, the format from that path, the hash only when the file exists; RecordDownloadInserts states what is stored |
| DownloadServices.RecordDownloadSpec | src/aniworld/database/services.py:296-361 | The corrected `record_download` on the tables: None for an unknown episode, provider or language, else the row saved under the next key; RecordDownloadRejects and RecordDownloadInserts state its properties |
| DownloadServices.RecordDownloadRejects | src/aniworld/database/services.py:296-361 | No download is recorded exactly when the episode URL is unknown or the provider or language name is not in the tables; the ledger is then unchanged |
| DownloadServices.RecordDownloadInserts | src/aniworld/database/services.py:336-361 | A recorded download gets the next key, touches no other row, and stores the found episode, provider and language ids, the links, status 'abgeschlossen' exactly with a local path, the probed hash and the path's format |
| DownloadServices.RecordedIsActiveIffPlanned | src/aniworld/database/services.py:341-355 | A recorded download is listed as active exactly when it has no local path |
| DownloadServices.UpdateDownloadStatusSpec | src/aniworld/database/services.py:363-403 | `update_download_status` on the ledger: False for an unknown id, else the updated download saved and True; UpdateDownloadStatusFacts states its properties |
| DownloadServices.UpdatedDownload | src/aniworld/database/services.py:384-398 | The field updates of `update_download_status`: the status always; path, size and speed only when given truthy; hash and format only for 'abgeschlossen' with an existing file; UpdateDownloadStatusFacts states them per field |
| DownloadServices.UpdateDownloadStatusFacts | src/aniworld/database/services.py:363-403 | The update succeeds exactly for a stored id, touches only that row, sets the status, replaces path, size and speed only with truthy values, and on completion with an existing file sets hash and format |
| DownloadServices.UpdatedIsActiveIffStatus | src/aniworld/database/services.py:363-403 | An updated download is active exactly when its new status is 'geplant' or 'läuft' |
| DownloadServices.DownloadService.constructor | src/aniworld/database/services.py:288-294 | The service works on the shared catalogue |
| DownloadServices.DownloadService.RecordDownloadAsWritten | src/aniworld/database/services.py:316-322 | As written: None for an unknown URL, and TypeError for every known one |
| DownloadServices.DownloadService.RecordDownload | src/aniworld/database/services.py:296-361 | The ledger and the answer are those RecordDownloadSpec computes |
| DownloadServices.DownloadService.UpdateDownloadStatus | src/aniworld/database/services.py:363-403 | The ledger and the answer are those UpdateDownloadStatusSpec computes |
| DownloadServices.DownloadService.GetActiveDownloads | src/aniworld/database/services.py:405-412 | Exactly the active downloads, oldest first |
| Integration.Summary | src/aniworld/database/integration.py:184-193 | The dictionary of a download carries its id, episode, status, date and local path |
| Integration.Summaries | src/aniworld/database/integration.py:182-193 | One dictionary per download, in order |
| Integration.ActiveSummaries | src/aniworld/database/integration.py:170-199 | Each dictionary returned is that of a stored active download, and every stored active download has one |
| Integration.Caught | src/aniworld/database/integration.py:143-145 | An `except Exception` handler yields the value on success and the fallback on an exception |
| Integration.DatabaseIntegration.constructor | src/aniworld/database/integration.py:21-28 | Both services share the catalogue |
| Integration.DatabaseIntegration.SaveAnimeData | src/aniworld/database/integration.py:30-48 | The tables and outcome of save_from_scraper_data, its exception passed on |
| Integration.DatabaseIntegration.GetAnimeByUrl | src/aniworld/database/integration.py:50-70 | The series the URL finds |
| Integration.DatabaseIntegration.FindAllAnimes | src/aniworld/database/integration.py:72-86 | Every series, by title |
| Integration.DatabaseIntegration.GetEpisodeData | src/aniworld/database/integration.py:88-108 | The episode the URL finds |
| Integration.DatabaseIntegration.RecordDownload | src/aniworld/database/integration.py:110-145 | Always -1: an unknown episode returns -1, and the call with keyword arguments the service does not take raises TypeError, which is caught |
| Integration.DatabaseIntegration.UpdateDownloadStatus | src/aniworld/database/integration.py:147-168 | The service's update with only the status given |
| Integration.DatabaseIntegration.GetActiveDownloadsAsWritten | src/aniworld/database/integration.py:178-199 | As written: always [], so fewer entries than active downloads whenever there are any |
| Integration.DatabaseIntegration.GetActiveDownloads | src/aniworld/database/integration.py:170-199 | One dictionary per active download, in order |
| Integration.IntegrationHolder.GetIntegration | src/aniworld/database/integration.py:206-216 | The instance is built on the first call and returned unchanged afterwards |
| Pipeline.DataUrl | src/aniworld/database/pipeline.py:46 | `data.get('url')`: the dictionary's URL, None when the key is absent; ProcessAnime's ensures use it |
| Pipeline.SeriesStoredKeepsLookup | src/aniworld/database/pipeline.py:62-67 | Saving a series never moves a URL that already found a series to another key |
| Pipeline.SeriesStoredKeepsCache | src/aniworld/database/pipeline.py:52-67 | Saving a series keeps every cached URL-to-id entry true |
| Pipeline.Remembered | src/aniworld/database/pipeline.py:62-70 | The cache after the lookup and the save: only the URL's entry can change; a saved id replaces a found one, and after a raise the found id stays |
| Pipeline.SaveKeepsCache | src/aniworld/database/pipeline.py:57-67 | A saved id is positive, and the cache after process_anime still maps each URL to the key that URL finds |
| Pipeline.DatabasePipeline.constructor | src/aniworld/database/pipeline.py:19-30 | The pipeline starts with an empty cache |
| Pipeline.DatabasePipeline.ProcessAnime | src/aniworld/database/pipeline.py:32-73 | None without a database or URL; the cached id for a cached URL, without writing; otherwise the save, with its id cached; a returned id is always the key the URL finds |
| Pipeline.DatabasePipeline.SaveAnime | src/aniworld/database/pipeline.py:56-73 | The tables change as save_anime_data says, and the cache remembers the found key and then the saved id |
| Pipeline.DatabasePipeline.LookUpAndSave | src/aniworld/database/pipeline.py:57-63 | The URL lookup before the save, then the save's effect |
| Pipeline.DatabasePipeline.ProcessEpisode | src/aniworld/database/pipeline.py:75-107 | An id exactly when there is a database, a URL and a stored episode with it; that episode has the URL |
| Pipeline.DatabasePipeline.RecordDownload | src/aniworld/database/pipeline.py:109-148 | Always None: incomplete data returns None, and the integration always answers -1 |
| Pipeline.DatabasePipeline.UpdateDownloadStatus | src/aniworld/database/pipeline.py:150-175 | False without a database, otherwise the service's status update |
| Pipeline.DatabasePipeline.ClearCache | src/aniworld/database/pipeline.py:177-183 | The cache is emptied |
| Pipeline.PipelineHolder.GetPipeline | src/aniworld/database/pipeline.py:189-200 | The pipeline is built on the first call and returned unchanged afterwards |
| Config.ConfigValues.Set | src/aniworld/database/config.py:94-108 | Assigning one setting changes that one and no other |
| Config.Defaults | src/aniworld/database/config.py:23-33 | Every setting starts at its default |
| Config.StripLeft | src/aniworld/database/config.py:116-129 | int() strips leading whitespace: a suffix starting with no space |
| Config.StripRight | src/aniworld/database/config.py:116-129 | int() strips trailing whitespace: a prefix ending with no space |
| Config.DigitsSpell | src/aniworld/database/config.py:116-129 | The decimal digits of a natural number are well grouped and read back as it |
| Config.IntLiteral | src/aniworld/database/config.py:116-129 | Python's `int()` on a string: white space stripped, one optional sign, well-grouped decimal digits, else the ValueError as None; DecimalRoundTrip states int(str(n)) == n |
| Config.DecimalRoundTrip | src/aniworld/database/config.py:116-129 | int() of the decimal spelling of any integer gives that integer |
| Config.Override | src/aniworld/database/config.py:83-108 | The `for key in ...: config[key] = ...` loop shared by the file and environment loads; OverrideAt states its effect on each setting |
| Config.OverrideAt | src/aniworld/database/config.py:83-108 | After an override, a listed setting present in the source holds the source's string, and every other setting is unchanged |
| Config.Resolved | src/aniworld/database/config.py:47-137 | The configuration the constructor leaves: defaults, then the [database] section, then the environment, then the conversions; ResolvedPerKey and ResolvedTypes state its properties |
| Config.ResolvedPerKey | src/aniworld/database/config.py:47-137 | Each resolved setting is its converted raw value: the environment over the config file over the default |
| Config.ResolvedTypes | src/aniworld/database/config.py:111-137 | Port and pool size are integers, the two flags are booleans unless the string is not a known word, and the rest stay strings |
| Config.EnvCannotSet | src/aniworld/database/config.py:36-42 | Environment variables cannot set the charset, use_pure, autocommit or pool size |
| Config.FirstExisting | src/aniworld/database/config.py:58-69 | The first candidate path that exists, or None when none does |
| Config.FindConfigFile | src/aniworld/database/config.py:58-69 | The search loop stops at the first existing candidate |
| Config.IntSetting | src/aniworld/database/config.py:116-129 | A number stays; a string is int()-parsed, falling back to the default when it is not a valid literal |
| Config.BoolSetting | src/aniworld/database/config.py:132-137 | A truthy word becomes True, a falsy word False, anything else is kept |
| Config.DatabaseConfig.constructor | src/aniworld/database/config.py:47-81 | The configuration is the defaults, overridden by the file, then the environment, then converted |
| Config.DatabaseConfig.LoadFromConfigFile | src/aniworld/database/config.py:83-100 | The [database] keys that are present override their settings, and nothing else changes |
| Config.DatabaseConfig.LoadFromEnvironment | src/aniworld/database/config.py:102-108 | The five mapped variables that are set override their settings |
| Config.DatabaseConfig.ConvertTypes | src/aniworld/database/config.py:111-137 | The integer and boolean settings are converted |
| Config.DatabaseConfig.ConvertInts | src/aniworld/database/config.py:116-129 | Port and pool size are converted, with their defaults as fallback |
| Config.DatabaseConfig.ConvertBoolSettings | src/aniworld/database/config.py:132-137 | Autocommit and use_pure are converted |
| Config.DatabaseConfig.GetConfig | src/aniworld/database/config.py:139-146 | A copy of the configuration |
| Config.DatabaseConfig.GetSanitizedConfig | src/aniworld/database/config.py:148-157 | The password is masked and every other setting is kept |
| Config.DatabaseConfig.GetConnectionParams | src/aniworld/database/config.py:159-176 | Every setting passed to the connector as configured |
| Config.ConfigHolder.GetConfig | src/aniworld/database/config.py:183-196 | The configuration is resolved on the first call and kept afterwards |
| Cli.Count | src/aniworld/__main__.py:1032 | str.count never exceeds the length |
| Cli.CountAppend | src/aniworld/__main__.py:1032 | Counting is additive over concatenation |
| Cli.Split | src/aniworld/__main__.py:964 | str.split('/') yields one more piece than there are slashes |
| Cli.SplitJoin | src/aniworld/__main__.py:964 | Joining the pieces with '/' gives back the string |
| Cli.JoinSplit | src/aniworld/__main__.py:953 | Splitting a join of slash-free pieces gives back the pieces |
| Cli.SplitAround | src/aniworld/__main__.py:964 | Splitting at a slash splits both sides independently |
| Cli.LastPieceIsTail | src/aniworld/__main__.py:964 | The last piece of split('/') is the suffix after the last slash |
| Cli.RStripSlash | src/aniworld/__main__.py:1036 | rstrip('/') removes exactly the trailing slashes |
| Cli.ValidatedLink | src/aniworld/__main__.py:1030-1039 | `validate_link` on args.link: an empty link kept, five slashes kept, six with a trailing one stripped of its trailing slashes, anything else None; ValidatedLinkShape and ValidatedLinkIdempotent state its properties |
| Cli.ValidatedLinkShape | src/aniworld/__main__.py:1030-1039 | A link is kept exactly when it has five slashes, or six with one at the end; the kept link is a prefix with at most five slashes, and the six-slash case only loses its final slash |
| Cli.ValidatedLinkIdempotent | src/aniworld/__main__.py:1030-1039 | Validating a validated link changes nothing, unless it ends in two slashes |
| Cli.ValidatedLinkDoubleSlash | src/aniworld/__main__.py:1030-1039 | A four-slash link with '//' appended is accepted but its stripped form is not, so validation is not idempotent there |
| Cli.DigitsNoSlash | src/aniworld/__main__.py:953 | A season or episode number contains no slash |
| Cli.EpisodeUrl | src/aniworld/__main__.py:957 | The episode URL handle_query builds from slug, season and episode; EpisodeUrlTitle states that its title is the slug |
| Cli.EpisodeUrlTitle | src/aniworld/__main__.py:949-974 | The title read from the episode URL that handle_query builds is the slug it was built from |
| Cli.AnimeTitle | src/aniworld/__main__.py:961-974 | `get_anime_title`: the last piece of the link, else the slug, else piece 5 of the first episode URL with IndexError when there is none, else None; EpisodeUrlTitle and LinkTitle state its properties |
| Cli.LinkTitle | src/aniworld/__main__.py:963-966 | The title of a link is its part after the last slash |
| Cli.Args.constructor | src/aniworld/__main__.py:961-974 | The parsed arguments |
| Cli.Args.ValidateLink | src/aniworld/__main__.py:1030-1039 | args.link is replaced by its validated form |
| Cli.Args.GetAnimeTitle | src/aniworld/__main__.py:961-974 | The title from the link, else the slug, else the sixth piece of the first episode URL (IndexError when it has fewer), else None |
| Cli.Routed | src/aniworld/__main__.py:1066-1076 | Each bucket is a subsequence of the URLs |
| Cli.Route | src/aniworld/__main__.py:1066-1076 | The prefix tests of `check_other_extractors`: the first matching prefix picks jav, nhentai, streamkiste or hanime, no match leaves the URL; RoutedMembers and RoutedPartition state its properties |
| Cli.Dispatched | src/aniworld/__main__.py:1083-1097 | The extractor calls in the order of the four loops: jav, nhentai, hanime, streamkiste, each bucket in input order; DispatchedOrReturned states that with the returned list it holds every input URL once |
| Cli.RoutedMembers | src/aniworld/__main__.py:1066-1076 | A URL is in a bucket exactly when it is among the inputs and its first matching prefix selects that bucket |
| Cli.RoutedPartition | src/aniworld/__main__.py:1066-1076 | The five buckets together hold every URL exactly as often as the input |
| Cli.Calls | src/aniworld/__main__.py:1083-1097 | One extractor call per URL, in order |
| Cli.CalledUrls | src/aniworld/__main__.py:1083-1097 | The URLs of a call trace, in order |
| Cli.DispatchedOrReturned | src/aniworld/__main__.py:1057-1099 | Every URL passed to an extractor matches that extractor's prefix, and the calls plus the returned URLs are exactly the input |
| Cli.CallExtractor | src/aniworld/__main__.py:1083-1097 | The loop calls the extractor once per URL, in order |
| Cli.CheckOtherExtractors | src/aniworld/__main__.py:1057-1099 | Returns the URLs no other extractor claims, and calls jav, nhentai, hanime, streamkiste on their buckets in that order |
| Cli.LanguageId | src/aniworld/__main__.py:535-541 | `get_language_code`: '1', '2', '3' for German Dub, English Sub and German Sub, else ""; LanguageIdRoundTrip states its properties |
| Cli.LanguageIdRoundTrip | src/aniworld/__main__.py:535-541 | The three known languages get distinct codes that map back to them; any other language gets "" |
| Cli.LangCode | src/aniworld/__main__.py:423-433 | The `lang_code` of on_ok: 'jap', 'en', 'ger-sub', else 'ger', and the numeric code on Windows; LangCodeRoundTrip states its properties |
| Cli.LangCodeRoundTrip | src/aniworld/__main__.py:423-433 | Off Windows the four languages get distinct codes and anything else falls to 'ger'; on Windows the numeric code replaces it, "" for Japanese |
| Cli.Title | src/aniworld/__main__.py:65 | str.title upper-cases the first cased letter of each run and lower-cases the others |
| Cli.ReplaceChar | src/aniworld/__main__.py:65 | str.replace of one character by another, position by position |
| Cli.TitleOnlyChangesCase | src/aniworld/__main__.py:65 | Title casing changes only the case of letters |
| Cli.TitleIdempotent | src/aniworld/__main__.py:65 | Title casing twice is title casing once |
| Cli.FormatAnimeTitle | src/aniworld/__main__.py:62-70 | `format_anime_title`: hyphens become spaces, then str.title; FormattedTitleShape and FormatAnimeTitleRoundTrip state its properties |
| Cli.FormattedTitleShape | src/aniworld/__main__.py:62-70 | The formatted title has the slug's length and no hyphen, each word starts upper case and continues lower case |
| Cli.FormatAnimeTitleRoundTrip | src/aniworld/__main__.py:62-70 | For a lower-case slug without spaces, lower-casing the title and turning spaces back into hyphens recovers the slug |

## Left out

- Logging everywhere, and the HTTP fetch of cover images: the fetch result is a parameter (`cover`) of the ingestion.
- The filesystem: whether a file exists and its SHA-256 hash (`_calculate_file_hash`) are a parameter `FileProbe` of the download operations.
- MySQL itself: connection errors, failed statements, the connection pool and transactions are not modelled. Every statement succeeds, and rows live in maps under their primary key.
- Clocks: the server's `NOW()` (repositories.py:89, :119) is a counter in the shared `Database`. The series creation time is not stored, because no finder reads it.
- Repositories.Visible: series rows carry only the columns the finders' SELECT lists read back; the rest are shown as unset.
- Python's `int()`, `str.lower()` and `str.title()` are modelled on ASCII. Unicode digits, Unicode whitespace and non-ASCII cased letters are not modelled.
- configparser is assumed to lower-case keys. Its DEFAULT section, interpolation and multi-file merging are not modelled. `Path.home()` and the set of existing files are parameters.
- Download speed is a `real`: floating-point rounding is not modelled.
- `StatisticsService` (services.py:464-655) reads aggregate SQL counts and is not part of this model.
- Integration.DatabaseIntegration.RecordDownload: modelled as written. It always answers -1, because the service call uses keyword arguments the service does not accept. The intended mapping of its arguments onto a `DownloadRequest` is not evident, so no corrected version is given.
- Pipeline.DatabasePipeline.ProcessAnime: the cache's agreement with the tables is proved only while the pipeline is the only writer of series.
- Pipeline.DatabasePipeline.SaveAnime: when a series already existed, the Python code caches its id before saving and again after. The model writes the cache once, after the save, with the same final content.
- The command line: npyscreen forms, argparse, threads, the `input()` prompt of `handle_query` and the extractors themselves are not modelled. Extractor calls are returned as a trace of `Call` values, and `platform.system()` is a parameter.
- Cli.FormatAnimeTitleRoundTrip: `format_anime_title`'s AttributeError and `sys.exit()` on a non-string slug are not modelled; the slug is always a string here.
- `common.get_language_code`, used by `main`, is not part of this model.
- Repositories.SeriesKeyByUrl, Repositories.SeasonByUrl, Repositories.EpisodeByUrl, Repositories.AnimeRepository.FindAll: text comparison and ordering are modelled as binary collation (code-point order, exact equality). The connection uses utf8mb4, whose default server collations ignore case; the schema is not part of this model, so a URL lookup that matches case variants and a title order that sorts 'b' before 'C' are not captured.
- Repositories.SaveDownload: the INSERT (repositories.py:631-637) names no `download_datum` column, so a new row's date is the schema's column default; the schema is not part of this model. The model assumes that default is the insertion time (the clock), and Repositories.DownloadsKeyed, SaveDownloadEffect and DownloadServices.RecordDownloadInserts rely on it; with no default the column would be NULL. The `datetime.now()` that `record_download` puts on the object (services.py:350) is not stored by that INSERT and is not modelled.
- DownloadServices.Extension: models `posixpath.splitext`, splitting only on '/'. On Windows, where `os.path` is `ntpath`, a backslash and a drive letter also end the stem, so a path such as `C:\Videos\.mp4` has no extension there but '.mp4' here.
- Services.ScraperDataTwice: holds only for a dictionary whose 'url' is not None. With 'url': None, `find_by_url(None)` compares with `= NULL` and never matches, so each call inserts another series; ScraperDataWithoutUrlInserts states this. Whether such a dictionary was meant to be rejected is not evident from the code, so no corrected version is given.

## Findings

| source | as written | input that shows it | evidently intended | confidence | as-written member | corrected member |
|---|---|---|---|---|---|---|
| src/aniworld/database/services.py:322 | `anime, season, episode = result` unpacks the single `Episode` returned by the URL lookup, which raises TypeError | any `record_download` whose episode URL is stored | take the episode from the lookup and record the download against it | not executed | DownloadServices.DownloadService.RecordDownloadAsWritten | DownloadServices.DownloadService.RecordDownload |
| src/aniworld/database/integration.py:189 | reads `download.download_pfad`, which `Download` does not have, so AttributeError is caught and [] returned | any call while at least one download is 'geplant' or 'läuft' | report the local path (`lokaler_pfad`) under 'download_pfad' | not executed | Integration.DatabaseIntegration.GetActiveDownloadsAsWritten | Integration.DatabaseIntegration.GetActiveDownloads |
