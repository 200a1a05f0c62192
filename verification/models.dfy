/**
 * The four catalogue records (series, season, episode, download) with the
 * field defaults of their dataclasses. Every Python field is kept; a field
 * typed `Optional[...]` is an `Option`, and so are the text fields `titel`
 * and `status`, which the ingestion code can overwrite with a JSON null.
 */
module Models {
  import opened Wrappers

  /** Raw bytes (cover images). */
  type Bytes = seq<bv8>

  /** A point in time, as an opaque tick of a clock. */
  type Timestamp = nat

  datatype AnimeSeries = AnimeSeries(
    seriesId: Option<int>,
    titel: Option<string>,
    originalTitel: Option<string>,
    beschreibung: Option<string>,
    coverUrl: Option<string>,
    coverData: Option<Bytes>,
    erscheinungsjahr: Option<int>,
    status: Option<string>,
    studio: Option<string>,
    regisseur: Option<string>,
    zielgruppe: Option<string>,
    fsk: Option<string>,
    bewertung: Option<real>,
    aniworldUrl: Option<string>,
    erstelltAm: Option<Timestamp>,
    aktualisiertAm: Option<Timestamp>)

  datatype Season = Season(
    seasonId: Option<int>,
    seriesId: int,
    staffelNummer: int,
    titel: Option<string>,
    beschreibung: Option<string>,
    erscheinungsjahr: Option<int>,
    anzahlEpisoden: Option<int>,
    aniworldUrl: Option<string>)

  datatype Episode = Episode(
    episodeId: Option<int>,
    seasonId: int,
    episodeNummer: int,
    titel: Option<string>,
    beschreibung: Option<string>,
    laufzeit: Option<int>,
    luftdatum: Option<Timestamp>,
    aniworldUrl: Option<string>)

  datatype Download = Download(
    downloadId: Option<int>,
    episodeId: int,
    providerId: int,
    languageId: int,
    speicherlink: string,
    lokalerPfad: Option<string>,
    dateigroesse: Option<int>,
    qualitaet: Option<string>,
    downloadDatum: Option<Timestamp>,
    format: Option<string>,
    hashWert: Option<string>,
    status: string,
    notizen: Option<string>,
    downloadPfadId: Option<int>,
    vpnGenutzt: bool,
    vpnId: Option<int>,
    vpnServerId: Option<int>,
    downloadGeschwindigkeit: Option<real>,
    benutzerId: Option<int>)

  /** `AnimeSeries()` with every field at its default. */
  const NewAnimeSeries: AnimeSeries :=
    AnimeSeries(None, Some(""), None, None, None, None, None, Some("laufend"),
                None, None, None, None, None, None, None, None)

  /** `Season()` with every field at its default. */
  const NewSeason: Season := Season(None, 0, 0, None, None, None, None, None)

  /** `Episode()` with every field at its default. */
  const NewEpisode: Episode := Episode(None, 0, 0, None, None, None, None, None)

  /** `Download()` with every field at its default. */
  const NewDownload: Download :=
    Download(None, 0, 0, 0, "", None, None, None, None, None, None, "geplant",
             None, None, false, None, None, None, None)

  /** No optional metadata of a series is set. */
  predicate SeriesMetadataUnset(a: AnimeSeries) {
    && a.originalTitel == None && a.beschreibung == None && a.coverUrl == None
    && a.coverData == None && a.erscheinungsjahr == None && a.studio == None
    && a.regisseur == None && a.zielgruppe == None && a.fsk == None
    && a.bewertung == None && a.aniworldUrl == None
    && a.erstelltAm == None && a.aktualisiertAm == None
  }

  /** No optional metadata of a season is set. */
  predicate SeasonMetadataUnset(s: Season) {
    s.titel == None && s.beschreibung == None && s.erscheinungsjahr == None
    && s.anzahlEpisoden == None && s.aniworldUrl == None
  }

  /** No optional metadata of an episode is set. */
  predicate EpisodeMetadataUnset(e: Episode) {
    e.titel == None && e.beschreibung == None && e.laufzeit == None
    && e.luftdatum == None && e.aniworldUrl == None
  }

  /** No optional metadata of a download is set. */
  predicate DownloadMetadataUnset(d: Download) {
    && d.lokalerPfad == None && d.dateigroesse == None && d.qualitaet == None
    && d.downloadDatum == None && d.format == None && d.hashWert == None
    && d.notizen == None && d.downloadPfadId == None && d.vpnId == None
    && d.vpnServerId == None && d.downloadGeschwindigkeit == None
    && d.benutzerId == None
  }

  /** The dataclass defaults: no id yet, empty or initial texts, no metadata. */
  lemma Defaults()
    ensures NewAnimeSeries.seriesId == None && NewAnimeSeries.titel == Some("")
    ensures NewAnimeSeries.status == Some("laufend") && SeriesMetadataUnset(NewAnimeSeries)
    ensures NewSeason.seasonId == None && NewSeason.seriesId == 0 && NewSeason.staffelNummer == 0
    ensures SeasonMetadataUnset(NewSeason)
    ensures NewEpisode.episodeId == None && NewEpisode.seasonId == 0 && NewEpisode.episodeNummer == 0
    ensures EpisodeMetadataUnset(NewEpisode)
    ensures NewDownload.downloadId == None && NewDownload.speicherlink == ""
    ensures NewDownload.status == "geplant" && !NewDownload.vpnGenutzt
    ensures NewDownload.episodeId == 0 && NewDownload.providerId == 0 && NewDownload.languageId == 0
    ensures DownloadMetadataUnset(NewDownload)
  {
  }
}
