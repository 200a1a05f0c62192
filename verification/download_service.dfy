/**
 * The DownloadService of services.py: recording a download against an
 * episode found by its URL, updating a download's status, listing the
 * active downloads, and deriving a file format from a path. The file system
 * (whether a path exists, the SHA-256 of its content) is a parameter.
 */
module DownloadServices {
  import opened Wrappers
  import opened Models
  import opened Repositories
  import opened Services

  // ---------------------------------------------------------------------
  // _get_file_format

  /** `str.rfind(c)`: the last index of `c` in `s`, or -1. */
  function LastIndexOf(s: string, c: char): (i: int)
    ensures -1 <= i < |s|
    ensures i >= 0 ==> s[i] == c
    ensures forall j :: i < j < |s| ==> s[j] != c
  {
    if |s| == 0 then -1
    else if s[|s| - 1] == c then |s| - 1
    else LastIndexOf(s[..|s| - 1], c)
  }

  /**
   * `os.path.splitext(p)[1]` with the POSIX separator: from the last dot of
   * the last path component to the end, provided that something other than
   * a dot precedes the dot within the component; otherwise empty.
   */
  function Extension(p: string): (e: string)
    ensures e == "" || (e[0] == '.' && |e| <= |p| && e == p[|p| - |e|..])
    ensures forall i :: 0 < i < |e| ==> e[i] != '.' && e[i] != '/'
  {
    var sep := LastIndexOf(p, '/');
    var dot := LastIndexOf(p, '.');
    if dot > sep && exists k :: sep < k < dot && p[k] != '.' then p[dot..] else ""
  }

  /** The seven extensions the format table knows. */
  const KnownExtensions: set<string> := {".mp4", ".mkv", ".avi", ".mov", ".wmv", ".flv", ".webm"}

  /** `format_map.get(extension)`. */
  function FormatOfExtension(ext: string): Option<string> {
    match ext
    case ".mp4" => Some("MP4")
    case ".mkv" => Some("MKV")
    case ".avi" => Some("AVI")
    case ".mov" => Some("MOV")
    case ".wmv" => Some("WMV")
    case ".flv" => Some("FLV")
    case ".webm" => Some("WEBM")
    case _ => None
  }

  /**
   * `_get_file_format(path)`: no format for a missing or empty path or an
   * unknown extension; a known extension, in any letter case, gives its
   * name in capitals without the dot.
   */
  function FileFormat(path: Option<string>): (r: Option<string>)
    ensures r.Some? <==> TruthyStr(path) && Lower(Extension(path.value)) in KnownExtensions
    ensures r.Some? ==> r.value in {"MP4", "MKV", "AVI", "MOV", "WMV", "FLV", "WEBM"}
  {
    if !TruthyStr(path) then None
    else FormatOfExtension(Lower(Extension(path.value)))
  }

  /** Lowering the letters keeps every dot and every slash where it was. */
  lemma {:induction false} LastIndexOfCaseless(p: string, q: string, c: char)
    requires Lower(p) == Lower(q) && (c == '.' || c == '/')
    ensures LastIndexOf(p, c) == LastIndexOf(q, c)
    decreases |p|
  {
    assert |p| == |q|;
    if |p| > 0 {
      var n := |p| - 1;
      assert LowerChar(p[n]) == Lower(p)[n] == Lower(q)[n] == LowerChar(q[n]);
      assert p[n] == c <==> q[n] == c;
      assert Lower(p[..n]) == Lower(p)[..n] == Lower(q)[..n] == Lower(q[..n]);
      LastIndexOfCaseless(p[..n], q[..n], c);
    }
  }

  /** A format is its extension in capitals, without the dot. */
  lemma FormatIsExtensionInCapitals(ext: string)
    requires ext in KnownExtensions
    ensures FormatOfExtension(ext).Some? && Lower(FormatOfExtension(ext).value) == ext[1..]
  {
    var f := FormatOfExtension(ext).value;
    assert |f| == |ext| - 1;
    forall i | 0 <= i < |f|
      ensures Lower(f)[i] == ext[1..][i]
    {
    }
  }

  /** Only the dot lowers to a dot. */
  lemma LowerCharDot(c: char)
    ensures LowerChar(c) == '.' <==> c == '.'
  {
  }

  /** splitext finds the same extension, up to letter case, in two paths that differ only in letter case. */
  lemma ExtensionIgnoresCase(p: string, q: string)
    requires Lower(p) == Lower(q)
    ensures Lower(Extension(p)) == Lower(Extension(q))
  {
    assert |p| == |q|;
    LastIndexOfCaseless(p, q, '.');
    LastIndexOfCaseless(p, q, '/');
    var sep := LastIndexOf(p, '/');
    var dot := LastIndexOf(p, '.');
    forall k | 0 <= k < |p|
      ensures p[k] != '.' <==> q[k] != '.'
    {
      assert LowerChar(p[k]) == Lower(p)[k] == Lower(q)[k] == LowerChar(q[k]);
      LowerCharDot(p[k]);
      LowerCharDot(q[k]);
    }
    if dot > sep {
      if exists k :: sep < k < dot && p[k] != '.' {
        var k :| sep < k < dot && p[k] != '.';
        assert q[k] != '.';
        assert Lower(p[dot..]) == Lower(p)[dot..] == Lower(q)[dot..] == Lower(q[dot..]);
      } else {
        assert forall k :: sep < k < dot ==> q[k] == '.';
      }
    }
  }

  /** `_get_file_format` does not depend on letter case. */
  lemma FileFormatIgnoresCase(p: string, q: string)
    requires Lower(p) == Lower(q)
    ensures FileFormat(Some(p)) == FileFormat(Some(q))
  {
    ExtensionIgnoresCase(p, q);
  }

  /**
   * A file name ending in a known extension, after a last path component
   * that does not end in a dot, has the format of that extension.
   */
  lemma FileFormatOfName(name: string, ext: string)
    requires |name| > 0 && name[|name| - 1] != '.' && name[|name| - 1] != '/'
    requires Lower(ext) in KnownExtensions
    ensures FileFormat(Some(name + ext)) == FormatOfExtension(Lower(ext))
    ensures FileFormat(Some(name + ext)).Some?
  {
    var p := name + ext;
    var n := |name|;
    assert LowerChar(ext[0]) == '.';
    assert ext[0] == '.';
    forall i | 0 < i < |ext|
      ensures ext[i] != '.' && ext[i] != '/'
    {
      assert LowerChar(ext[i]) == Lower(ext)[i];
    }
    var dot := LastIndexOf(p, '.');
    var sep := LastIndexOf(p, '/');
    assert p[n] == '.';
    assert dot == n;
    assert sep < n - 1 by {
      assert p[n - 1] == name[n - 1];
    }
    assert p[n - 1] != '.';
    assert p[dot..] == ext;
  }

  // ---------------------------------------------------------------------
  // record_download

  /** The arguments of `record_download`. */
  datatype DownloadRequest = DownloadRequest(
    episodeUrl: string,
    providerName: string,
    languageName: string,
    speicherlink: string,
    lokalerPfad: Option<string>,
    qualitaet: Option<string>,
    dateigroesse: Option<int>,
    vpnGenutzt: bool)

  /** What the file system answers about a path: whether it exists, and its hash (None when reading failed). */
  datatype FileProbe = FileProbe(exists_: bool, hash: Option<string>)

  /** The id `record_download` returns, and the download table and counter after it. */
  datatype Recorded = Recorded(id: Option<int>, rows: map<int, Download>, next: int)

  /**
   * The `Download` object `record_download` builds: status 'abgeschlossen'
   * exactly when a local path is given; format from that path; hash only
   * when the path exists. download_datum is left out: the `INSERT` does not
   * name it, so the column default applies, taken to be the server's time.
   */
  function DownloadRow(episodeId: int, providerId: int, languageId: int, req: DownloadRequest, probe: FileProbe): Download {
    NewDownload.(
      episodeId := episodeId, providerId := providerId, languageId := languageId,
      speicherlink := req.speicherlink, lokalerPfad := req.lokalerPfad,
      dateigroesse := req.dateigroesse, qualitaet := req.qualitaet,
      format := if TruthyStr(req.lokalerPfad) then FileFormat(req.lokalerPfad) else None,
      hashWert := if TruthyStr(req.lokalerPfad) && probe.exists_ then probe.hash else None,
      status := if TruthyStr(req.lokalerPfad) then "abgeschlossen" else "geplant",
      vpnGenutzt := req.vpnGenutzt)
  }

  /**
   * `record_download` with the episode bound to what `get_episode_by_url`
   * returns: nothing is recorded when the episode, the provider or the
   * language is unknown; otherwise the download is inserted at server time
   * `now` and its new id returned.
   */
  function RecordDownloadSpec(episodes: map<int, Episode>, nextEpisodeId: int, downloads: map<int, Download>,
                              nextDownloadId: int, now: Timestamp, req: DownloadRequest, probe: FileProbe): Recorded
  {
    match EpisodeByUrl(episodes, nextEpisodeId, Some(req.episodeUrl))
    case None => Recorded(None, downloads, nextDownloadId)
    case Some(episode) =>
      var providerId := ProviderId(req.providerName);
      var languageId := LanguageId(req.languageName);
      if providerId == 0 || languageId == 0 then Recorded(None, downloads, nextDownloadId)
      else
        var w := SaveDownload(downloads, nextDownloadId, now,
                              DownloadRow(episode.episodeId.GetOr(0), providerId, languageId, req, probe));
        Recorded(Some(w.id), w.rows, w.next)
  }

  /** Nothing is recorded, and no row written, exactly when the episode, the provider or the language is unknown. */
  lemma RecordDownloadRejects(episodes: map<int, Episode>, nextEpisodeId: int, downloads: map<int, Download>,
                              nextDownloadId: int, now: Timestamp, req: DownloadRequest, probe: FileProbe)
    ensures var r := RecordDownloadSpec(episodes, nextEpisodeId, downloads, nextDownloadId, now, req, probe);
      r.id.None? <==>
        (|| EpisodeByUrl(episodes, nextEpisodeId, Some(req.episodeUrl)).None?
         || ProviderId(req.providerName) == 0 || LanguageId(req.languageName) == 0)
    ensures var r := RecordDownloadSpec(episodes, nextEpisodeId, downloads, nextDownloadId, now, req, probe);
      r.id.None? ==> r.rows == downloads && r.next == nextDownloadId
  {
  }

  /**
   * A recorded download is exactly one new row under a fresh id, which
   * `find_by_id` returns: it belongs to the episode stored under the URL,
   * carries the looked-up provider and language, is 'abgeschlossen' when a
   * local path was given and 'geplant' otherwise, and has a hash only when
   * the file exists.
   */
  lemma RecordDownloadInserts(episodes: map<int, Episode>, nextEpisodeId: int, downloads: map<int, Download>,
                              nextDownloadId: int, now: Timestamp, req: DownloadRequest, probe: FileProbe)
    requires EpisodesKeyed(episodes, nextEpisodeId) && DownloadsKeyed(downloads, nextDownloadId, now)
    ensures var r := RecordDownloadSpec(episodes, nextEpisodeId, downloads, nextDownloadId, now, req, probe);
      r.id.Some? ==>
        && r.id.value == nextDownloadId && r.id.value !in downloads && r.next == nextDownloadId + 1
        && r.rows.Keys == downloads.Keys + {r.id.value}
        && (forall k :: k in downloads ==> r.rows[k] == downloads[k])
        && DownloadById(r.rows, r.id.value) == Some(r.rows[r.id.value])
    ensures var r := RecordDownloadSpec(episodes, nextEpisodeId, downloads, nextDownloadId, now, req, probe);
      r.id.Some? ==>
        var row := r.rows[r.id.value];
        && EpisodeByUrl(episodes, nextEpisodeId, Some(req.episodeUrl)) == Some(episodes[row.episodeId])
        && row.providerId == ProviderId(req.providerName) && row.languageId == LanguageId(req.languageName)
        && row.speicherlink == req.speicherlink && row.lokalerPfad == req.lokalerPfad
        && (row.status == "abgeschlossen" <==> TruthyStr(req.lokalerPfad))
        && (row.status == "geplant" <==> !TruthyStr(req.lokalerPfad))
        && (row.hashWert.Some? ==> TruthyStr(req.lokalerPfad) && probe.exists_)
        && row.format == FileFormat(req.lokalerPfad)
        && row.downloadDatum == Some(now)
  {
    var r := RecordDownloadSpec(episodes, nextEpisodeId, downloads, nextDownloadId, now, req, probe);
    if r.id.Some? {
      var episode := EpisodeByUrl(episodes, nextEpisodeId, Some(req.episodeUrl)).value;
      var k :| 1 <= k < nextEpisodeId && k in episodes && episodes[k] == episode;
      assert episode.episodeId == Some(k);
      var row := DownloadRow(k, ProviderId(req.providerName), LanguageId(req.languageName), req, probe);
      SaveDownloadEffect(downloads, nextDownloadId, now, row);
    }
  }

  /** A recorded download is among the active ones exactly when it was planned, not completed. */
  lemma RecordedIsActiveIffPlanned(episodes: map<int, Episode>, nextEpisodeId: int, downloads: map<int, Download>,
                                   nextDownloadId: int, now: Timestamp, req: DownloadRequest, probe: FileProbe)
    requires EpisodesKeyed(episodes, nextEpisodeId) && DownloadsKeyed(downloads, nextDownloadId, now)
    ensures var r := RecordDownloadSpec(episodes, nextEpisodeId, downloads, nextDownloadId, now, req, probe);
      r.id.Some? ==> (r.rows[r.id.value] in ActiveDownloads(r.rows, r.next) <==> !TruthyStr(req.lokalerPfad))
  {
    var r := RecordDownloadSpec(episodes, nextEpisodeId, downloads, nextDownloadId, now, req, probe);
    RecordDownloadInserts(episodes, nextEpisodeId, downloads, nextDownloadId, now, req, probe);
    if r.id.Some? {
      var id := r.id.value;
      assert 1 <= id < r.next && id in r.rows;
    }
  }

  // ---------------------------------------------------------------------
  // update_download_status

  /** The arguments of `update_download_status` besides the id. */
  datatype StatusUpdate = StatusUpdate(
    status: string,
    lokalerPfad: Option<string>,
    dateigroesse: Option<int>,
    downloadGeschwindigkeit: Option<real>)

  /** Python truthiness of an optional float: neither `None` nor `0.0`. */
  predicate TruthyReal(x: Option<real>) {
    x.Some? && x.value != 0.0
  }

  /**
   * The loaded download after `update_download_status` has changed it: the
   * status always, path, size and speed when given truthy, and hash and
   * format when the new status is 'abgeschlossen' and the file at the
   * (possibly new) path exists.
   */
  function UpdatedDownload(d: Download, u: StatusUpdate, probe: FileProbe): Download {
    var d1 := d.(status := u.status);
    var d2 := if TruthyStr(u.lokalerPfad) then d1.(lokalerPfad := u.lokalerPfad) else d1;
    var d3 := if TruthyInt(u.dateigroesse) then d2.(dateigroesse := u.dateigroesse) else d2;
    var d4 := if TruthyReal(u.downloadGeschwindigkeit) then d3.(downloadGeschwindigkeit := u.downloadGeschwindigkeit) else d3;
    if u.status == "abgeschlossen" && TruthyStr(d4.lokalerPfad) && probe.exists_ then
      d4.(hashWert := probe.hash, format := FileFormat(d4.lokalerPfad))
    else
      d4
  }

  /** The result of `update_download_status`, and the download table and counter after it. */
  datatype StatusUpdated = StatusUpdated(ok: bool, rows: map<int, Download>, next: int)

  /** `update_download_status(id, …)` at server time `now`. */
  function UpdateDownloadStatusSpec(t: map<int, Download>, next: int, now: Timestamp, id: int,
                                    u: StatusUpdate, probe: FileProbe): StatusUpdated
  {
    match DownloadById(t, id)
    case None => StatusUpdated(false, t, next)
    case Some(d) =>
      var w := SaveDownload(t, next, now, UpdatedDownload(d, u, probe));
      StatusUpdated(true, w.rows, w.next)
  }

  /**
   * An unknown id gives False and changes nothing. A known one gives True
   * and rewrites only that row: the status is set without any check of the
   * transition; path, size and speed change only when given truthy; hash
   * and format change only for a completed download whose file exists;
   * every other column, download_datum included, keeps its value.
   */
  lemma UpdateDownloadStatusFacts(t: map<int, Download>, next: int, now: Timestamp, id: int,
                                  u: StatusUpdate, probe: FileProbe)
    requires DownloadsKeyed(t, next, now)
    ensures var r := UpdateDownloadStatusSpec(t, next, now, id, u, probe);
      && (r.ok <==> id in t)
      && r.next == next && r.rows.Keys == t.Keys
      && (forall k :: k in t && k != id ==> r.rows[k] == t[k])
    ensures var r := UpdateDownloadStatusSpec(t, next, now, id, u, probe);
      id in t ==>
        var (d, d') := (t[id], r.rows[id]);
        && d'.status == u.status
        && d'.lokalerPfad == (if TruthyStr(u.lokalerPfad) then u.lokalerPfad else d.lokalerPfad)
        && d'.dateigroesse == (if TruthyInt(u.dateigroesse) then u.dateigroesse else d.dateigroesse)
        && d'.downloadGeschwindigkeit ==
           (if TruthyReal(u.downloadGeschwindigkeit) then u.downloadGeschwindigkeit else d.downloadGeschwindigkeit)
        && (if u.status == "abgeschlossen" && TruthyStr(d'.lokalerPfad) && probe.exists_
            then d'.hashWert == probe.hash && d'.format == FileFormat(d'.lokalerPfad)
            else d'.hashWert == d.hashWert && d'.format == d.format)
        && d' == d.(status := d'.status, lokalerPfad := d'.lokalerPfad, dateigroesse := d'.dateigroesse,
                    downloadGeschwindigkeit := d'.downloadGeschwindigkeit, hashWert := d'.hashWert,
                    format := d'.format)
  {
    if id in t {
      var d' := UpdatedDownload(t[id], u, probe);
      assert d'.downloadId == Some(id);
      SaveDownloadEffect(t, next, now, d');
    }
  }

  /** After a status update the download is active exactly when its new status is 'geplant' or 'läuft'. */
  lemma UpdatedIsActiveIffStatus(t: map<int, Download>, next: int, now: Timestamp, id: int,
                                 u: StatusUpdate, probe: FileProbe)
    requires DownloadsKeyed(t, next, now) && id in t
    ensures var r := UpdateDownloadStatusSpec(t, next, now, id, u, probe);
      r.rows[id] in ActiveDownloads(r.rows, r.next) <==> u.status == "geplant" || u.status == "läuft"
  {
    UpdateDownloadStatusFacts(t, next, now, id, u, probe);
    var r := UpdateDownloadStatusSpec(t, next, now, id, u, probe);
    assert 1 <= id < r.next && id in r.rows;
  }

  // ---------------------------------------------------------------------
  // DownloadService

  class DownloadService {
    const db: Database
    const downloadRepo: DownloadRepository
    const animeService: AnimeService

    ghost predicate Valid()
      reads db
    {
      db.Valid() && downloadRepo.db == db && animeService.db == db && animeService.Valid()
    }

    constructor(db: Database)
      requires db.Valid()
      ensures this.db == db && Valid()
    {
      this.db := db;
      downloadRepo := new DownloadRepository(db);
      animeService := new AnimeService(db);
    }

    /**
     * `record_download` as written: the lookup returns one `Episode`, a
     * truthy object, which the code unpacks as a triple. An unknown URL
     * gives `None`; a known one raises TypeError, so nothing is ever
     * recorded and no row written.
     */
    method RecordDownloadAsWritten(req: DownloadRequest) returns (r: Result<Option<int>>)
      requires Valid()
      ensures EpisodeByUrl(db.episodes, db.nextEpisodeId, Some(req.episodeUrl)).None? <==> r == Ok(None)
      ensures EpisodeByUrl(db.episodes, db.nextEpisodeId, Some(req.episodeUrl)).Some? <==> r == Raised(TypeError)
      ensures r.Ok? ==> r.value.None?
    {
      var result := animeService.GetEpisodeByUrl(Some(req.episodeUrl));
      if result.None? {
        return Ok(None);
      }
      // `anime, season, episode = result` cannot unpack an Episode
      return Raised(TypeError);
    }

    /** `record_download` with the lookup result taken as the episode; see RecordDownloadSpec. */
    method RecordDownload(req: DownloadRequest, probe: FileProbe) returns (r: Option<int>)
      requires Valid()
      modifies db`downloads, db`nextDownloadId, db`clock
      ensures Valid()
      ensures Recorded(r, db.downloads, db.nextDownloadId) ==
              RecordDownloadSpec(db.episodes, db.nextEpisodeId, old(db.downloads), old(db.nextDownloadId),
                                 old(db.clock), req, probe)
    {
      var result := animeService.GetEpisodeByUrl(Some(req.episodeUrl));
      if result.None? {
        return None;
      }
      var episode := result.value;
      var providerId := ProviderId(req.providerName);
      var languageId := LanguageId(req.languageName);
      if providerId == 0 || languageId == 0 {
        return None;
      }
      var download := DownloadRow(episode.episodeId.GetOr(0), providerId, languageId, req, probe);
      var id := downloadRepo.Save(download);
      r := Some(id);
    }

    /** `update_download_status`; see UpdateDownloadStatusFacts. */
    method UpdateDownloadStatus(downloadId: int, u: StatusUpdate, probe: FileProbe) returns (ok: bool)
      requires Valid()
      modifies db`downloads, db`nextDownloadId, db`clock
      ensures Valid()
      ensures StatusUpdated(ok, db.downloads, db.nextDownloadId) ==
              UpdateDownloadStatusSpec(old(db.downloads), old(db.nextDownloadId), old(db.clock), downloadId, u, probe)
    {
      var found := downloadRepo.FindById(downloadId);
      if found.None? {
        return false;
      }
      var download := found.value;
      download := download.(status := u.status);
      if TruthyStr(u.lokalerPfad) {
        download := download.(lokalerPfad := u.lokalerPfad);
      }
      if TruthyInt(u.dateigroesse) {
        download := download.(dateigroesse := u.dateigroesse);
      }
      if TruthyReal(u.downloadGeschwindigkeit) {
        download := download.(downloadGeschwindigkeit := u.downloadGeschwindigkeit);
      }
      if u.status == "abgeschlossen" && TruthyStr(download.lokalerPfad) && probe.exists_ {
        download := download.(hashWert := probe.hash, format := FileFormat(download.lokalerPfad));
      }
      var id := downloadRepo.Save(download);
      ok := true;
    }

    /** `get_active_downloads`: the downloads that are 'geplant' or 'läuft', oldest first. */
    method GetActiveDownloads() returns (downloads: seq<Download>)
      requires Valid()
      ensures downloads == ActiveDownloads(db.downloads, db.nextDownloadId)
      ensures forall d :: d in downloads <==> d in db.downloads.Values && IsActive(d)
    {
      downloads := downloadRepo.FindActiveDownloads();
    }
  }
}
