TestResult.DisplayName,TestResult.Outcome,TestResult.Duration,TestResult.ResourceCount,RandomSeed
Config.ResolvedPerKey (correctness),Passed,00:00:00.9474998,1503315,0
Pipeline.SaveKeepsCache (correctness),Passed,00:00:00.8066031,1913058,0
DownloadServices.UpdateDownloadStatusFacts (correctness),Passed,00:00:00.7600819,1102379,0
Services.IngestEpisodeKeeps (correctness),Passed,00:00:00.6015793,1296368,0
Services.AnimeService.SaveSeriesData (correctness),Passed,00:00:00.5787898,1069548,0
Repositories.AnimeRepository.FindAll (correctness),Passed,00:00:00.5229222,1050569,0
Pipeline.DatabasePipeline.SaveAnime (correctness),Passed,00:00:00.4823393,753663,0
Pipeline.DatabasePipeline.ProcessAnime (correctness),Passed,00:00:00.4738662,535906,0
Services.IngestSeasonIdempotent (correctness),Passed,00:00:00.4650739,1053681,0
Services.CreatedSeriesRow (correctness),Passed,00:00:00.4318536,1048122,0
Services.GetOrCreateEpisodeSpecFacts (correctness),Passed,00:00:00.4270412,1060300,0
Pipeline.DatabasePipeline.ProcessAnime (well-formedness),Passed,00:00:00.4208242,536257,0
Integration.DatabaseIntegration.SaveAnimeData (correctness),Passed,00:00:00.4132595,435798,0
Services.AnimeService.SaveFromScraperData (correctness),Passed,00:00:00.4039681,676234,0
Services.IngestScraperDataFacts (correctness),Passed,00:00:00.4027661,859502,0
DownloadServices.UpdatedIsActiveIffStatus (well-formedness),Passed,00:00:00.3855995,361300,0
Cli.SplitJoin (correctness),Passed,00:00:00.3795445,1029497,0
Services.GetOrCreateSeasonSpecFacts (correctness),Passed,00:00:00.3729229,760630,0
DownloadServices.DownloadService.UpdateDownloadStatus (correctness),Passed,00:00:00.3632714,714991,0
Services.SeriesHalfStoredFound (correctness),Passed,00:00:00.3622941,910702,0
Pipeline.DatabasePipeline.LookUpAndSave (correctness),Passed,00:00:00.3420056,477365,0
Pipeline.DatabasePipeline.SaveAnime (well-formedness),Passed,00:00:00.3316823,447304,0
Services.AnimeService.SaveSeasonList (correctness),Passed,00:00:00.3190164,445736,0
Cli.DispatchedOrReturned (correctness),Passed,00:00:00.3142669,904506,0
Pipeline.DatabasePipeline.LookUpAndSave (well-formedness),Passed,00:00:00.2965793,415814,0
Services.IngestSeasonStep (correctness),Passed,00:00:00.2877999,647870,0
Services.AnimeService.SaveEpisodeList (correctness),Passed,00:00:00.2702886,352867,0
Services.AnimeService.SaveSeasonEntry (correctness),Passed,00:00:00.2642787,398310,0
Services.IngestSeasonSaves (correctness),Passed,00:00:00.2570192,628511,0
Integration.DatabaseIntegration.SaveAnimeData (well-formedness),Passed,00:00:00.2568404,385504,0
DownloadServices.DownloadService.RecordDownload (correctness),Passed,00:00:00.2556415,415882,0
Pipeline.SeriesStoredKeepsLookup (correctness),Passed,00:00:00.2551562,406649,0
Repositories.DownloadRepository.FindByEpisodeId (correctness),Passed,00:00:00.2493887,363121,0
DownloadServices.ExtensionIgnoresCase (correctness),Passed,00:00:00.2439668,819350,0
DownloadServices.RecordDownloadInserts (correctness),Passed,00:00:00.2411977,586381,0
Repositories.DownloadRepository.Save (correctness),Passed,00:00:00.2357997,363420,0
Pipeline.DatabasePipeline.UpdateDownloadStatus (correctness),Passed,00:00:00.2338552,423368,0
DownloadServices.RecordDownloadInserts (well-formedness),Passed,00:00:00.2324712,399232,0
Services.ScraperDataTwice (correctness),Passed,00:00:00.2302954,364391,0
Services.AnimeService.SaveFromScraperData (well-formedness),Passed,00:00:00.2287197,374207,0
Config.OverrideAt (correctness),Passed,00:00:00.2254983,569744,0
Services.SeriesHalfStoredCreated (correctness),Passed,00:00:00.2250577,407440,0
Repositories.AnimeRepository.Save (correctness),Passed,00:00:00.2207733,366466,0
DownloadServices.RecordedIsActiveIffPlanned (well-formedness),Passed,00:00:00.2185493,358269,0
Cli.RoutedPartition (correctness),Passed,00:00:00.2163986,830856,0
DownloadServices.LastIndexOfCaseless (correctness),Passed,00:00:00.2150445,395035,0
Services.ScraperDataWithoutUrlInserts (correctness),Passed,00:00:00.2145405,337653,0
Config.ResolvedTypes (correctness),Passed,00:00:00.2084366,437761,0
Services.IngestAnimeDataFacts (correctness),Passed,00:00:00.2058511,432300,0
Integration.ActiveSummaries (well-formedness),Passed,00:00:00.2058398,146444,0
Integration.DatabaseIntegration.GetActiveDownloads (correctness),Passed,00:00:00.2045331,429883,0
Services.AnimeService.SaveSeasonList (well-formedness),Passed,00:00:00.1960811,253557,0
Services.IngestEpisodeStep (correctness),Passed,00:00:00.1956378,279230,0
Pipeline.DatabasePipeline.ProcessEpisode (well-formedness),Passed,00:00:00.1949080,185231,0
DownloadServices.DownloadService.RecordDownload (well-formedness),Passed,00:00:00.1886895,231082,0
Services.ScraperDataSaved (well-formedness),Passed,00:00:00.1867437,314937,0
DownloadServices.RecordedIsActiveIffPlanned (correctness),Passed,00:00:00.1865842,377789,0
Services.AnimeService.GetOrCreateSeason (correctness),Passed,00:00:00.1841737,283926,0
Cli.EpisodeUrlTitle (correctness),Passed,00:00:00.1817960,516828,0
Services.AnimeService.GetOrCreateEpisode (correctness),Passed,00:00:00.1784290,290455,0
Config.DatabaseConfig._ctor (correctness),Passed,00:00:00.1782250,408531,0
Repositories.SeasonRepository.Save (correctness),Passed,00:00:00.1745766,239830,0
Query.Select (well-formedness),Passed,00:00:00.1736556,234340,0
Services.IngestSeasonRaises (correctness),Passed,00:00:00.1731999,220920,0
Integration.SummariesSound (correctness),Passed,00:00:00.1731174,159229,0
Services.AnimeService.SaveEpisodeEntry (correctness),Passed,00:00:00.1713245,367393,0
Repositories.DownloadRepository.FindActiveDownloads (correctness),Passed,00:00:00.1699740,285236,0
Integration.DatabaseIntegration.GetActiveDownloadsAsWritten (correctness),Passed,00:00:00.1682358,207588,0
Repositories.EpisodeRepository.FindBySeasonId (correctness),Passed,00:00:00.1653099,249039,0
Pipeline.DatabasePipeline.ProcessEpisode (correctness),Passed,00:00:00.1639784,199266,0
Services.IngestEpisodeCovers (correctness),Passed,00:00:00.1638709,337282,0
Services.AnimeService.SaveEpisodeEntry (well-formedness),Passed,00:00:00.1638662,215460,0
Services.IngestSeasonCovers (correctness),Passed,00:00:00.1589356,273444,0
Repositories.AnimeRepository.SaveCoverData (correctness),Passed,00:00:00.1587966,201942,0
Integration.Summaries (well-formedness),Passed,00:00:00.1571579,87293,0
Services.LookupsInjective (correctness),Passed,00:00:00.1528752,143080,0
Integration.DatabaseIntegration.FindAllAnimes (correctness),Passed,00:00:00.1521941,191915,0
Repositories.DownloadRepository.FindActiveDownloads (well-formedness),Passed,00:00:00.1520683,147184,0
Services.IngestSeasonKeeps (correctness),Passed,00:00:00.1502163,298106,0
Services.IngestEpisodesCovers (correctness),Passed,00:00:00.1501649,216552,0
Cli.CountAppend (correctness),Passed,00:00:00.1499912,51113,0
Repositories.AnimeRepository.FindAll (well-formedness),Passed,00:00:00.1479650,172336,0
Cli.LastPieceIsTail (correctness),Passed,00:00:00.1478959,555934,0
Pipeline.SaveKeepsCache (well-formedness),Passed,00:00:00.1458554,149619,0
Config.ConfigHolder.GetConfig (correctness),Passed,00:00:00.1456212,212578,0
Config.Defaults (well-formedness),Passed,00:00:00.1443499,62665,0
Integration.SummariesSound (well-formedness),Passed,00:00:00.1443027,126900,0
Cli.Split (well-formedness),Passed,00:00:00.1436829,35551,0
Services.IngestEpisodeIdempotent (correctness),Passed,00:00:00.1419693,249367,0
Config.DecimalRoundTrip (correctness),Passed,00:00:00.1417463,413495,0
Pipeline.DatabasePipeline.UpdateDownloadStatus (well-formedness),Passed,00:00:00.1414545,209227,0
Config.ConfigValues.Set (well-formedness),Passed,00:00:00.1407889,116733,0
Integration.DatabaseIntegration.UpdateDownloadStatus (well-formedness),Passed,00:00:00.1386800,187943,0
Services.AnimeService.GetOrCreateSeason (well-formedness),Passed,00:00:00.1378033,190307,0
DownloadServices.FileFormat (well-formedness),Passed,00:00:00.1374366,226027,0
Config.DatabaseConfig.LoadFromEnvironment (correctness),Passed,00:00:00.1373320,325598,0
Config.EnvCannotSet (correctness),Passed,00:00:00.1368711,284754,0
Services.AnimeService.GetOrCreateAnime (correctness),Passed,00:00:00.1366111,272314,0
Repositories.SaveNewSeriesThenFindByUrl (correctness),Passed,00:00:00.1358112,158325,0
Repositories.SeasonRepository.FindByAnimeId (well-formedness),Passed,00:00:00.1354649,144522,0
Repositories.AnimeRepository.FindByUrl (correctness),Passed,00:00:00.1351799,146238,0
Repositories.SeasonRepository.FindByUrl (correctness),Passed,00:00:00.1342273,126061,0
DownloadServices.FormatIsExtensionInCapitals (correctness),Passed,00:00:00.1335997,338091,0
Services.ScraperDataWithoutUrlInserts (well-formedness),Passed,00:00:00.1326172,312175,0
DownloadServices.DownloadService.GetActiveDownloads (well-formedness),Passed,00:00:00.1323585,164305,0
Services.AnimeService.GetAnimeByUrl (correctness),Passed,00:00:00.1317036,148138,0
Repositories.SeasonRepository.FindBySeriesId (correctness),Passed,00:00:00.1312570,247629,0
Integration.DatabaseIntegration.GetActiveDownloadsAsWritten (well-formedness),Passed,00:00:00.1308478,169857,0
DownloadServices.RecordDownloadRejects (correctness),Passed,00:00:00.1300951,167258,0
Integration.DatabaseIntegration.GetAnimeByUrl (well-formedness),Passed,00:00:00.1296651,149041,0
Repositories.EpisodeRepository.Save (correctness),Passed,00:00:00.1296023,246112,0
Services.AnimeService.SaveSeasonEntry (well-formedness),Passed,00:00:00.1287871,251191,0
Services.IngestSeasonsCovers (correctness),Passed,00:00:00.1277725,261827,0
Wrappers.Result.PropagateFailure (well-formedness),Passed,00:00:00.1274140,7423,0
DownloadServices.UpdatedIsActiveIffStatus (correctness),Passed,00:00:00.1264716,235013,0
Integration.DatabaseIntegration.GetEpisodeData (well-formedness),Passed,00:00:00.1259260,131810,0
Pipeline.DatabasePipeline.ClearCache (correctness),Passed,00:00:00.1258568,158421,0
Repositories.SetCoverInvisible (correctness),Passed,00:00:00.1254287,380988,0
Config.DatabaseConfig.ConvertBoolSettings (correctness),Passed,00:00:00.1250279,219452,0
Services.StoredSeasonFound (correctness),Passed,00:00:00.1240333,246387,0
Wrappers.Result.Extract (well-formedness),Passed,00:00:00.1227834,7369,0
Services.SeriesHalfStored (correctness),Passed,00:00:00.1226500,167763,0
DownloadServices.DownloadService.RecordDownloadAsWritten (correctness),Passed,00:00:00.1219798,159522,0
Services.AnimeService.GetSeasonsByAnimeId (correctness),Passed,00:00:00.1186157,165986,0
Services.GetOrCreateSeasonSpecInserts (correctness),Passed,00:00:00.1182513,182117,0
Services.AnimeService.FindAllAnimes (well-formedness),Passed,00:00:00.1182460,178299,0
Config.ConfigHolder.GetConfig (well-formedness),Passed,00:00:00.1179713,165562,0
Services.IngestTwiceAddsNothing (correctness),Passed,00:00:00.1172796,273289,0
Integration.DatabaseIntegration.GetAnimeByUrl (correctness),Passed,00:00:00.1144784,151284,0
DownloadServices.DownloadService.GetActiveDownloads (correctness),Passed,00:00:00.1143148,190065,0
Services.IngestSeasonsIdempotent (correctness),Passed,00:00:00.1137455,271698,0
Services.IngestSeasonStep (well-formedness),Passed,00:00:00.1116987,189440,0
Repositories.EpisodeRepository.FindByUrl (well-formedness),Passed,00:00:00.1114978,110169,0
Repositories.EpisodeRepository.Delete (well-formedness),Passed,00:00:00.1114947,90343,0
Integration.DatabaseIntegration._ctor (well-formedness),Passed,00:00:00.1109211,102990,0
Services.IngestEpisodesIdempotent (correctness),Passed,00:00:00.1107389,218134,0
Services.IngestSeasonsRaises (correctness),Passed,00:00:00.1098193,239931,0
Services.IngestEpisodesStopsAtRaise (correctness),Passed,00:00:00.1082429,147590,0
Query.SelectSorted (correctness),Passed,00:00:00.1081925,73759,0
Services.IngestSeason (well-formedness),Passed,00:00:00.1078648,184452,0
Services.AnimeService.SaveEpisodeList (well-formedness),Passed,00:00:00.1072474,217890,0
Pipeline.DatabasePipeline.Valid (well-formedness),Passed,00:00:00.1069820,146569,0
Integration.DatabaseIntegration._ctor (correctness),Passed,00:00:00.1058244,165247,0
Services.AnimeService.GetEpisodeByUrl (correctness),Passed,00:00:00.1056517,132001,0
Services.IngestEpisodesRaises (correctness),Passed,00:00:00.1036080,147853,0
Services.CreatedSeriesRow (well-formedness),Passed,00:00:00.1033184,209793,0
Services.IngestSeasonsStopsAtRaise (correctness),Passed,00:00:00.1027797,191307,0
Repositories.SeasonRepository.FindByUrl (well-formedness),Passed,00:00:00.1026885,110169,0
Services.AnimeService.GetOrCreateAnime (well-formedness),Passed,00:00:00.1026855,169963,0
Cli.CheckOtherExtractors (correctness),Passed,00:00:00.1025127,225843,0
Integration.DatabaseIntegration.UpdateDownloadStatus (correctness),Passed,00:00:00.1023069,204496,0
Services.IngestSeasonsKeeps (correctness),Passed,00:00:00.0993265,261071,0
Integration.DatabaseIntegration.GetActiveDownloads (well-formedness),Passed,00:00:00.0988837,180162,0
Services.AnimeService.SaveSeriesData (well-formedness),Passed,00:00:00.0986323,196191,0
Repositories.Database.Valid (well-formedness),Passed,00:00:00.0980876,92587,0
Services.GetOrCreateAnimeSpecFacts (correctness),Passed,00:00:00.0980504,215275,0
DownloadServices.DownloadService.UpdateDownloadStatus (well-formedness),Passed,00:00:00.0980203,184189,0
Integration.ActiveSummaries (correctness),Passed,00:00:00.0962013,151116,0
Repositories.SeasonRepository.FindByAnimeId (correctness),Passed,00:00:00.0953904,154949,0
Services.GetOrCreateEpisodeSpecInserts (correctness),Passed,00:00:00.0950780,182959,0
Repositories.EpisodeRepository.Delete (correctness),Passed,00:00:00.0945701,140651,0
Config.DatabaseConfig.LoadFromConfigFile (correctness),Passed,00:00:00.0932963,181445,0
Cli.ValidatedLinkShape (correctness),Passed,00:00:00.0931816,221417,0
Repositories.EpisodeRepository.FindBySeasonId (well-formedness),Passed,00:00:00.0929972,145463,0
Config.ResolvedTypes (well-formedness),Passed,00:00:00.0929663,143182,0
Repositories.DownloadsOfEpisode (well-formedness),Passed,00:00:00.0927825,153207,0
Cli.ValidatedLinkDoubleSlash (correctness),Passed,00:00:00.0924681,309748,0
Integration.SummariesComplete (correctness),Passed,00:00:00.0923496,147504,0
Pipeline.PipelineHolder.GetPipeline (well-formedness),Passed,00:00:00.0912107,155082,0
DownloadServices.UpdateDownloadStatusFacts (well-formedness),Passed,00:00:00.0908855,136651,0
Repositories.SaveDownloadKeepsKeyed (correctness),Passed,00:00:00.0906410,201442,0
Services.IngestEpisodesKeeps (correctness),Passed,00:00:00.0904224,226073,0
Repositories.SeasonRepository.FindBySeriesId (well-formedness),Passed,00:00:00.0901792,145463,0
Cli.SplitAround (correctness),Passed,00:00:00.0898556,338627,0
Services.SeriesStored (well-formedness),Passed,00:00:00.0894390,109965,0
Integration.DatabaseIntegration.GetEpisodeData (correctness),Passed,00:00:00.0892317,134053,0
DownloadServices.DownloadService.RecordDownloadAsWritten (well-formedness),Passed,00:00:00.0883023,141766,0
Pipeline.PipelineHolder.GetPipeline (correctness),Passed,00:00:00.0876346,197116,0
Pipeline.DatabasePipeline.ClearCache (well-formedness),Passed,00:00:00.0874209,134380,0
Services.IngestSeasonSaves (well-formedness),Passed,00:00:00.0873367,198013,0
Services.AnimeService._ctor (correctness),Passed,00:00:00.0854448,119462,0
Integration.IntegrationHolder.GetIntegration (correctness),Passed,00:00:00.0846876,157765,0
DownloadServices.FileFormatOfName (correctness),Passed,00:00:00.0843281,233853,0
Services.GetOrCreateSeasonSpecFacts (well-formedness),Passed,00:00:00.0839480,129323,0
Pipeline.DatabasePipeline.RecordDownload (correctness),Passed,00:00:00.0838938,189294,0
Pipeline.SeriesStoredKeepsCache (well-formedness),Passed,00:00:00.0831205,106247,0
Integration.DatabaseIntegration.FindAllAnimes (well-formedness),Passed,00:00:00.0830022,189944,0
Repositories.DownloadRepository.FindByEpisodeId (well-formedness),Passed,00:00:00.0818052,148241,0
Config.DatabaseConfig.ConvertInts (correctness),Passed,00:00:00.0808981,100612,0
Repositories.EpisodeRepository.FindByUrl (correctness),Passed,00:00:00.0801050,125601,0
Cli.ValidatedLinkIdempotent (correctness),Passed,00:00:00.0800643,41649,0
Repositories.FirstKeySameMatches (correctness),Passed,00:00:00.0800554,135871,0
Config.DatabaseConfig.LoadFromEnvironment (well-formedness),Passed,00:00:00.0792390,77882,0
Config.FirstExisting (well-formedness),Passed,00:00:00.0784715,90356,0
Repositories.AnimeRepository.Delete (correctness),Passed,00:00:00.0782101,143195,0
Services.AnimeService.GetSeasonsByAnimeId (well-formedness),Passed,00:00:00.0777223,156541,0
Services.SeasonCovered (well-formedness),Passed,00:00:00.0775309,54958,0
Services.ListedSeasonIsRow (well-formedness),Passed,00:00:00.0773733,87005,0
Repositories.Database._ctor (correctness),Passed,00:00:00.0773666,132845,0
Services.SeriesBefore (well-formedness),Passed,00:00:00.0773422,76278,0
Services.AnimeService.FindAllAnimes (correctness),Passed,00:00:00.0772740,194461,0
Repositories.EpisodesOfSeason (well-formedness),Passed,00:00:00.0762647,137861,0
Services.UpdatedRowIngested (correctness),Passed,00:00:00.0761597,75669,0
Query.InsertSorted (correctness),Passed,00:00:00.0759879,214191,0
Integration.DatabaseIntegration.RecordDownload (correctness),Passed,00:00:00.0757180,165585,0
Repositories.ActiveDownloads (well-formedness),Passed,00:00:00.0755486,124286,0
Pipeline.DatabasePipeline._ctor (well-formedness),Passed,00:00:00.0754828,135283,0
Services.AnimeService.GetOrCreateEpisode (well-formedness),Passed,00:00:00.0753733,190376,0
Integration.DatabaseIntegration.Valid (well-formedness),Passed,00:00:00.0749517,114258,0
Pipeline.SeriesStoredKeepsCache (correctness),Passed,00:00:00.0746416,142223,0
Pipeline.DatabasePipeline._ctor (correctness),Passed,00:00:00.0743277,156890,0
Services.GetOrCreateSeasonSpec (well-formedness),Passed,00:00:00.0738420,104843,0
Services.IngestSeasonsStopsAtRaise (well-formedness),Passed,00:00:00.0727650,173862,0
Services.GetOrCreateEpisodeSpecFacts (well-formedness),Passed,00:00:00.0725976,130070,0
DownloadServices.DownloadService.Valid (well-formedness),Passed,00:00:00.0720618,107498,0
Repositories.SaveDownloadEffect (well-formedness),Passed,00:00:00.0716144,85464,0
DownloadServices.DownloadService._ctor (correctness),Passed,00:00:00.0714705,142029,0
Repositories.AnimeRepository.Save (well-formedness),Passed,00:00:00.0684983,124930,0
Services.IngestEpisodes (well-formedness),Passed,00:00:00.0680695,132591,0
Repositories.DownloadRepository.FindById (well-formedness),Passed,00:00:00.0680114,42943,0
Repositories.SeasonRepository.Save (well-formedness),Passed,00:00:00.0679662,101180,0
Repositories.SeasonsOfSeries (well-formedness),Passed,00:00:00.0678915,128131,0
Integration.IntegrationHolder.GetIntegration (well-formedness),Passed,00:00:00.0674446,117407,0
Services.EpisodesCovered (well-formedness),Passed,00:00:00.0669342,40999,0
Services.AnimeService.GetEpisodeByUrl (well-formedness),Passed,00:00:00.0668769,121095,0
Repositories.SaveDownloadEffect (correctness),Passed,00:00:00.0668721,121360,0
Services.IngestEpisode (well-formedness),Passed,00:00:00.0667068,150549,0
Services.IngestSeasons (well-formedness),Passed,00:00:00.0666573,173135,0
Repositories.EpisodeRepository.Save (well-formedness),Passed,00:00:00.0665344,102899,0
Integration.SummariesComplete (well-formedness),Passed,00:00:00.0663845,101552,0
Services.ApplyEpisodeDataOverwritesPresentKeys (well-formedness),Passed,00:00:00.0648745,32201,0
Services.SeriesHalf (well-formedness),Passed,00:00:00.0641025,147471,0
Repositories.SeasonByUrl (well-formedness),Passed,00:00:00.0640367,86487,0
Repositories.VisibleAll (well-formedness),Passed,00:00:00.0639297,62619,0
Repositories.SaveSeriesEffect (correctness),Passed,00:00:00.0621187,110955,0
Services.IngestEpisodesStopsAtRaise (well-formedness),Passed,00:00:00.0620981,133443,0
Repositories.SaveSeriesKeepsKeyed (correctness),Passed,00:00:00.0618531,115510,0
Repositories.AnimeRepository.FindByUrl (well-formedness),Passed,00:00:00.0605008,126338,0
Services.SeasonsCoveredKept (correctness),Passed,00:00:00.0604273,126666,0
Services.StoredSeasonFound (well-formedness),Passed,00:00:00.0604170,134404,0
Services.CatalogKeptTransitive (correctness),Passed,00:00:00.0602266,64470,0
Repositories.SaveDownload (well-formedness),Passed,00:00:00.0601136,45086,0
Repositories.DownloadRepository.Save (well-formedness),Passed,00:00:00.0599006,105618,0
Services.CatalogOf (well-formedness),Passed,00:00:00.0597593,25540,0
Services.GetOrCreateAnimeSpecFacts (well-formedness),Passed,00:00:00.0583555,117737,0
Repositories.AnimeRepository.Delete (well-formedness),Passed,00:00:00.0582652,90343,0
Services.IngestEpisodeStep (well-formedness),Passed,00:00:00.0582381,155400,0
Repositories.SeriesTitelOrder (correctness),Passed,00:00:00.0581759,47174,0
Config.DatabaseConfig.ConvertTypes (correctness),Passed,00:00:00.0579630,123760,0
Services.UnlistedEpisodeIsFree (correctness),Passed,00:00:00.0577597,98908,0
Cli.Title (well-formedness),Passed,00:00:00.0570678,48179,0
Repositories.AnimeRepository.SaveCoverData (well-formedness),Passed,00:00:00.0569466,108228,0
Repositories.SaveSeriesThenFindById (correctness),Passed,00:00:00.0568191,100624,0
Services.ListedEpisodeIsRow (correctness),Passed,00:00:00.0561630,92459,0
Cli.SplitNoSlash (correctness),Passed,00:00:00.0556738,109085,0
Config.DigitsSpell (correctness),Passed,00:00:00.0548526,118235,0
Services.AnimeService.Valid (well-formedness),Passed,00:00:00.0545480,100861,0
Config.DatabaseConfig.LoadFromConfigFile (well-formedness),Passed,00:00:00.0542243,82428,0
Config.DatabaseConfig.ConvertTypes (well-formedness),Passed,00:00:00.0539493,113889,0
Services.AnimeService._ctor (well-formedness),Passed,00:00:00.0538682,92769,0
Repositories.SeriesByUrl (well-formedness),Passed,00:00:00.0529042,94439,0
Cli.RoutedSnoc (correctness),Passed,00:00:00.0528174,49355,0
Wrappers.TruthyStr (well-formedness),Passed,00:00:00.0526340,9379,0
Services.ApplyAnimeDataOverwritesPresentKeys (well-formedness),Passed,00:00:00.0524462,50607,0
Services.AnimeService.GetAnimeByUrl (well-formedness),Passed,00:00:00.0521434,137272,0
Cli.LangCodeRoundTrip (correctness),Passed,00:00:00.0521123,146295,0
Services.ListedSeasonIsRow (correctness),Passed,00:00:00.0520876,92657,0
DownloadServices.DownloadService._ctor (well-formedness),Passed,00:00:00.0517453,98734,0
Services.GetOrCreateEpisodeSpec (well-formedness),Passed,00:00:00.0514007,104935,0
Cli.FormattedTitleShape (correctness),Passed,00:00:00.0511179,112520,0
Repositories.DatumOrders (correctness),Passed,00:00:00.0506075,83177,0
Repositories.SeriesKeyByUrl (well-formedness),Passed,00:00:00.0501139,83493,0
Services.SeasonsCoveredSplit (correctness),Passed,00:00:00.0497834,118415,0
Cli.LinkTitle (correctness),Passed,00:00:00.0491579,140079,0
Pipeline.Remembered (well-formedness),Passed,00:00:00.0485210,121956,0
Cli.CallExtractor (correctness),Passed,00:00:00.0480611,76643,0
Services.ApplyAnimeDataOverwritesPresentKeys (correctness),Passed,00:00:00.0480582,57840,0
Cli.RoutedMembers (correctness),Passed,00:00:00.0476987,111352,0
Services.SeasonsOkSplit (well-formedness),Passed,00:00:00.0468236,37917,0
Repositories.EpisodeByUrl (well-formedness),Passed,00:00:00.0466364,88852,0
Repositories.SaveNewSeriesThenFindByUrl (well-formedness),Passed,00:00:00.0465625,95938,0
Config.DatabaseConfig.ConvertBoolSettings (well-formedness),Passed,00:00:00.0465522,80026,0
Cli.ReplaceChar (well-formedness),Passed,00:00:00.0455018,32387,0
Pipeline.CacheAgrees (well-formedness),Passed,00:00:00.0454316,50716,0
Services.EpisodesCoveredKept (correctness),Passed,00:00:00.0448212,77888,0
Services.UnlistedSeasonIsFree (correctness),Passed,00:00:00.0444248,99104,0
Models.Defaults (correctness),Passed,00:00:00.0435666,79808,0
Config.RawValue (well-formedness),Passed,00:00:00.0425077,73425,0
Services.ScanEpisodes (correctness),Passed,00:00:00.0422396,50083,0
Config.ConvertBools (well-formedness),Passed,00:00:00.0417637,65730,0
Cli.FormatAnimeTitleRoundTrip (correctness),Passed,00:00:00.0414061,77831,0
Query.FirstKey (well-formedness),Passed,00:00:00.0411361,82400,0
Config.FindConfigFile (correctness),Passed,00:00:00.0409048,102183,0
DownloadServices.FileFormatIgnoresCase (correctness),Passed,00:00:00.0406459,115213,0
Services.ListedEpisodeIsRow (well-formedness),Passed,00:00:00.0404309,86722,0
Repositories.SaveSeasonEffect (correctness),Passed,00:00:00.0402898,86183,0
Repositories.SaveSeasonKeepsKeyed (correctness),Passed,00:00:00.0400706,73012,0
Config.OverrideAt (well-formedness),Passed,00:00:00.0400390,67079,0
Repositories.SaveEpisodeEffect (correctness),Passed,00:00:00.0399738,85282,0
Repositories.SaveSeriesEffect (well-formedness),Passed,00:00:00.0392519,91464,0
Config.Override (well-formedness),Passed,00:00:00.0385717,64623,0
Repositories.SaveSeasonEffect (well-formedness),Passed,00:00:00.0383049,67684,0
Repositories.SaveEpisode (well-formedness),Passed,00:00:00.0377272,33913,0
Repositories.FirstKeySameMatches (well-formedness),Passed,00:00:00.0376404,51911,0
Repositories.SaveSeriesThenFindById (well-formedness),Passed,00:00:00.0373727,65009,0
Cli.Routed (well-formedness),Passed,00:00:00.0369346,57647,0
Repositories.SaveDownloadKeepsKeyed (well-formedness),Passed,00:00:00.0365793,52259,0
Pipeline.FoundCarriesKey (correctness),Passed,00:00:00.0363227,76036,0
Config.IntLiteral (well-formedness),Passed,00:00:00.0362995,48862,0
Services.SeasonsCovered (well-formedness),Passed,00:00:00.0360933,55362,0
Services.ApplySeasonDataOverwritesPresentKeys (well-formedness),Passed,00:00:00.0360590,32511,0
Repositories.SaveSeries (well-formedness),Passed,00:00:00.0358492,55592,0
Config.DatabaseConfig.ConvertInts (well-formedness),Passed,00:00:00.0357695,78002,0
DownloadServices.Extension (well-formedness),Passed,00:00:00.0356218,61446,0
Repositories.DownloadById (well-formedness),Passed,00:00:00.0355653,14068,0
Services.ApplyEpisodeDataOverwritesPresentKeys (correctness),Passed,00:00:00.0352306,38296,0
Cli.FormattedTitleShape (well-formedness),Passed,00:00:00.0348384,69029,0
Cli.LanguageIdRoundTrip (correctness),Passed,00:00:00.0344628,68911,0
Config.FileApplied (well-formedness),Passed,00:00:00.0339895,77916,0
Services.SeasonsCoveredSplit (well-formedness),Passed,00:00:00.0338969,57268,0
Repositories.SeriesKeyed (well-formedness),Passed,00:00:00.0337284,25432,0
Cli.Args.GetAnimeTitle (correctness),Passed,00:00:00.0334085,62882,0
Repositories.EpisodeById (well-formedness),Passed,00:00:00.0334003,14068,0
DownloadServices.FormatIsExtensionInCapitals (well-formedness),Passed,00:00:00.0332038,45650,0
Pipeline.FoundCarriesKey (well-formedness),Passed,00:00:00.0330089,62737,0
Services.EpisodesCoveredSplit (correctness),Passed,00:00:00.0327367,94012,0
Repositories.SetCover (well-formedness),Passed,00:00:00.0324348,62767,0
Repositories.SaveEpisodeKeepsKeyed (correctness),Passed,00:00:00.0323400,86026,0
Repositories.CoverChanged (well-formedness),Passed,00:00:00.0323012,28215,0
Services.ApplySeasonDataOverwritesPresentKeys (correctness),Passed,00:00:00.0319012,38596,0
Repositories.SeriesKeyByUrlSameUrls (correctness),Passed,00:00:00.0316794,58847,0
Query.Insert (well-formedness),Passed,00:00:00.0315078,75331,0
Config.DatabaseConfig.GetConnectionParams (correctness),Passed,00:00:00.0313749,86013,0
Services.RewriteEpisode (correctness),Passed,00:00:00.0313634,60730,0
Cli.JoinSplit (correctness),Passed,00:00:00.0306713,81135,0
Repositories.SaveEpisodeEffect (well-formedness),Passed,00:00:00.0301965,68160,0
Repositories.SaveSeason (well-formedness),Passed,00:00:00.0301154,33157,0
Repositories.AnimeRepository.FindById (correctness),Passed,00:00:00.0296746,50312,0
Repositories.SeriesKeyByUrlSameUrls (well-formedness),Passed,00:00:00.0295534,48536,0
Repositories.SaveEpisodeThenFindById (correctness),Passed,00:00:00.0295192,55661,0
Services.InsertFreshEpisode (correctness),Passed,00:00:00.0295158,52506,0
Query.SortSorted (correctness),Passed,00:00:00.0292089,54309,0
Repositories.SeasonNumberOrder (correctness),Passed,00:00:00.0291940,22465,0
Config.DatabaseConfig.GetSanitizedConfig (correctness),Passed,00:00:00.0291587,44724,0
Services.SeriesKeyFor (well-formedness),Passed,00:00:00.0284452,56308,0
Services.EpisodesCoveredSplit (well-formedness),Passed,00:00:00.0283197,40704,0
Integration.Summary (well-formedness),Passed,00:00:00.0280702,29894,0
Cli.TitleIdempotent (correctness),Passed,00:00:00.0280240,54718,0
Services.FirstEpisodeNumbered (well-formedness),Passed,00:00:00.0268481,54423,0
Repositories.AnimeRepository.FindById (well-formedness),Passed,00:00:00.0265565,45210,0
Query.Sort (well-formedness),Passed,00:00:00.0262955,52151,0
Config.IntSetting (correctness),Passed,00:00:00.0258366,42075,0
Repositories.DownloadRepository.FindById (correctness),Passed,00:00:00.0255852,44708,0
Cli.ValidatedLinkShape (well-formedness),Passed,00:00:00.0255641,28688,0
Services.ScanSeasons (correctness),Passed,00:00:00.0252897,49786,0
Config.BoolSetting (correctness),Passed,00:00:00.0252310,46399,0
Services.ProviderId (well-formedness),Passed,00:00:00.0251314,48552,0
Services.SeasonsOkSplit (correctness),Passed,00:00:00.0250257,56529,0
Repositories.DatumAscLe (well-formedness),Passed,00:00:00.0249314,23694,0
Cli.TitleOnlyChangesCase (well-formedness),Passed,00:00:00.0249265,35084,0
DownloadServices.FileFormatOfName (well-formedness),Passed,00:00:00.0249112,55552,0
Query.RowsBelow (well-formedness),Passed,00:00:00.0248523,43702,0
Query.OptStrLeIsPreorder (correctness),Passed,00:00:00.0247116,49340,0
Query.Filter (well-formedness),Passed,00:00:00.0246635,49138,0
Repositories.DownloadsKeyed (well-formedness),Passed,00:00:00.0245638,35167,0
Cli.LinkTitle (well-formedness),Passed,00:00:00.0245150,42615,0
Repositories.SeriesById (well-formedness),Passed,00:00:00.0242974,37671,0
Services.RewriteSeason (correctness),Passed,00:00:00.0242516,52914,0
Wrappers.Lower (well-formedness),Passed,00:00:00.0238602,39006,0
Services.SeasonDataOk (well-formedness),Passed,00:00:00.0234926,34415,0
Cli.CalledUrls (well-formedness),Passed,00:00:00.0234448,38571,0
Cli.AnimeTitle (well-formedness),Passed,00:00:00.0231973,38125,0
Cli.TitleOnlyChangesCase (correctness),Passed,00:00:00.0229136,61644,0
Config.BoolOf (well-formedness),Passed,00:00:00.0227145,39225,0
Cli.EpisodeUrl (well-formedness),Passed,00:00:00.0226913,34652,0
Repositories.EpisodeNumberOrder (correctness),Passed,00:00:00.0224362,27067,0
Services.InsertFreshSeason (correctness),Passed,00:00:00.0223043,45124,0
Repositories.EpisodeRepository.FindById (correctness),Passed,00:00:00.0222642,34256,0
Config.IntOr (well-formedness),Passed,00:00:00.0222374,36206,0
Services.RewriteEpisode (well-formedness),Passed,00:00:00.0219779,32684,0
Repositories.Visible (well-formedness),Passed,00:00:00.0217977,26696,0
Services.EpisodesOkSplit (correctness),Passed,00:00:00.0211694,41379,0
Cli.Count (well-formedness),Passed,00:00:00.0210869,18276,0
Repositories.EpisodeRepository.FindById (well-formedness),Passed,00:00:00.0210699,32679,0
Cli.Calls (well-formedness),Passed,00:00:00.0210374,35919,0
Repositories.SaveEpisodeThenFindById (well-formedness),Passed,00:00:00.0210342,40320,0
Services.SeasonsOk (well-formedness),Passed,00:00:00.0208224,36079,0
Config.LoadedSections (well-formedness),Passed,00:00:00.0206790,33294,0
Query.SortedBy (well-formedness),Passed,00:00:00.0201468,17359,0
Services.FirstSeasonNumbered (well-formedness),Passed,00:00:00.0197548,55133,0
Config.StripLeft (well-formedness),Passed,00:00:00.0196718,27963,0
Services.EpisodeKeysKept (well-formedness),Passed,00:00:00.0193952,21521,0
Cli.CalledUrlsAppend (correctness),Passed,00:00:00.0191741,33086,0
Config.Lookup (well-formedness),Passed,00:00:00.0191341,39196,0
Cli.SplitStepAppend (correctness),Passed,00:00:00.0190376,40832,0
Repositories.SeasonRepository.FindById (well-formedness),Passed,00:00:00.0186221,31019,0
Config.StripRight (well-formedness),Passed,00:00:00.0184143,32234,0
Cli.RStripSlash (well-formedness),Passed,00:00:00.0183171,36039,0
Cli.Join (well-formedness),Passed,00:00:00.0182635,15635,0
Repositories.SeasonRepository.FindById (correctness),Passed,00:00:00.0181956,32594,0
Cli.DigitsNoSlash (correctness),Passed,00:00:00.0176467,19452,0
Repositories.SeasonById (well-formedness),Passed,00:00:00.0174604,14068,0
Repositories.SeasonsKeyed (well-formedness),Passed,00:00:00.0173802,22036,0
Config.DigitsValue (well-formedness),Passed,00:00:00.0169676,25273,0
Config.Digits (well-formedness),Passed,00:00:00.0166060,18338,0
Services.Items (well-formedness),Passed,00:00:00.0164437,10458,0
Repositories.Matched (well-formedness),Passed,00:00:00.0162760,12802,0
Config.DigitsSpell (well-formedness),Passed,00:00:00.0162678,25616,0
DownloadServices.LastIndexOf (well-formedness),Passed,00:00:00.0161645,36801,0
Cli.LastPieceIsTail (well-formedness),Passed,00:00:00.0159022,25122,0
Services.EpisodesOkSplit (well-formedness),Passed,00:00:00.0157939,23922,0
Cli.Args.ValidateLink (correctness),Passed,00:00:00.0152911,31875,0
Cli.SplitSnoc (correctness),Passed,00:00:00.0149413,24705,0
Services.HasEpisode (well-formedness),Passed,00:00:00.0147812,18986,0
Services.EpisodesUnique (well-formedness),Passed,00:00:00.0147459,22131,0
Repositories.ExecuteUpdate (well-formedness),Passed,00:00:00.0146701,5988,0
Pipeline.Remember (correctness),Passed,00:00:00.0146493,33132,0
Services.RewriteSeason (well-formedness),Passed,00:00:00.0146378,25700,0
Config.WellGrouped (well-formedness),Passed,00:00:00.0141626,22032,0
Query.StrLeTransitive (correctness),Passed,00:00:00.0141595,23476,0
Services.HasSeason (well-formedness),Passed,00:00:00.0141452,16112,0
Repositories.EpisodesKeyed (well-formedness),Passed,00:00:00.0139345,22620,0
Cli.JoinSplit (well-formedness),Passed,00:00:00.0138772,22090,0
Cli.EndsWithSlash (well-formedness),Passed,00:00:00.0132977,7160,0
Cli.LastPiece (well-formedness),Passed,00:00:00.0132731,19089,0
Config.StripNothing (correctness),Passed,00:00:00.0132112,20919,0
Services.SeasonKeysKept (well-formedness),Passed,00:00:00.0131352,17962,0
Query.StrLeTotal (correctness),Passed,00:00:00.0130407,19079,0
Pipeline.Remember (well-formedness),Passed,00:00:00.0128997,28295,0
Wrappers.TruthyInt (well-formedness),Passed,00:00:00.0128572,7144,0
Cli.Args.ValidateLink (well-formedness),Passed,00:00:00.0127678,23347,0
Cli.Args._ctor (correctness),Passed,00:00:00.0125818,24037,0
Cli.SplitJoin (well-formedness),Passed,00:00:00.0123097,19204,0
Cli.ValidatedLink (well-formedness),Passed,00:00:00.0122888,19792,0
Cli.SplitStep (well-formedness),Passed,00:00:00.0122534,16265,0
Cli.SplitSnoc (well-formedness),Passed,00:00:00.0122012,18186,0
Services.LanguageId (well-formedness),Passed,00:00:00.0121728,26823,0
Config.StripNothing (well-formedness),Passed,00:00:00.0118737,15809,0
Services.EpisodesOk (well-formedness),Passed,00:00:00.0114924,22248,0
Query.OptStrLe (well-formedness),Passed,00:00:00.0114791,16378,0
Query.StrLe (well-formedness),Passed,00:00:00.0114489,15825,0
Services.SeasonsUnique (well-formedness),Passed,00:00:00.0110874,18734,0
Config.Decimal (well-formedness),Passed,00:00:00.0110703,15702,0
Cli.TitleAt (well-formedness),Passed,00:00:00.0109293,14853,0
Cli.PlainSlug (well-formedness),Passed,00:00:00.0108511,10443,0
Repositories.IsNewId (well-formedness),Passed,00:00:00.0107517,7329,0
Cli.SplitStepAppend (well-formedness),Passed,00:00:00.0102354,14261,0
Repositories.SeasonRepository._ctor (correctness),Passed,00:00:00.0100552,6776,0
Cli.StartsWith (well-formedness),Passed,00:00:00.0098846,7559,0
Repositories.AnimeRepository._ctor (correctness),Passed,00:00:00.0096925,6776,0
Cli.EndsWithDoubleSlash (well-formedness),Passed,00:00:00.0095128,12238,0
Config.DatabaseConfig.GetConfig (correctness),Passed,00:00:00.0090217,11431,0
Integration.Caught (well-formedness),Passed,00:00:00.0081396,8812,0
Wrappers.LowerChar (well-formedness),Passed,00:00:00.0080958,6523,0
Integration.IntegrationHolder._ctor (correctness),Passed,00:00:00.0079976,8000,0
Pipeline.PipelineHolder._ctor (correctness),Passed,00:00:00.0073579,8000,0
Repositories.DownloadRepository._ctor (correctness),Passed,00:00:00.0071377,6776,0
Cli.UpperChar (well-formedness),Passed,00:00:00.0070399,6535,0
Repositories.EpisodeRepository._ctor (correctness),Passed,00:00:00.0069923,6776,0
Services.TruthyBytes (well-formedness),Passed,00:00:00.0069169,9288,0
DownloadServices.LowerCharDot (correctness),Passed,00:00:00.0063526,7082,0
Config.ConfigHolder._ctor (correctness),Passed,00:00:00.0062774,8000,0
DownloadServices.TruthyReal (well-formedness),Passed,00:00:00.0060773,7144,0
