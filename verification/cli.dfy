/**
 * The command-line helpers of __main__.py that only compute: checking the
 * series link, picking the anime title, routing episode URLs to the other
 * sites' extractors, the language codes, and turning a slug into a title.
 * The extractors themselves, the forms, argparse and the platform query
 * are outside the model; the platform is a parameter.
 */
module Cli {
  import opened Wrappers
  import Config

  // ---------------------------------------------------------------------
  // str.count, str.split, str.rstrip on '/'
  // ---------------------------------------------------------------------

  /** `s.count(c)` for one character. */
  function Count(s: string, c: char): (n: nat)
    ensures n <= |s|
  {
    if s == [] then 0 else Count(s[..|s| - 1], c) + (if s[|s| - 1] == c then 1 else 0)
  }

  /** Counting is additive over concatenation. */
  lemma {:induction false} CountAppend(a: string, b: string, c: char)
    ensures Count(a + b, c) == Count(a, c) + Count(b, c)
  {
    if b == [] {
      assert a + b == a;
    } else {
      CountAppend(a, b[..|b| - 1], c);
      assert (a + b)[..|a + b| - 1] == a + b[..|b| - 1];
    }
  }

  /** `s.split('/')`: the pieces between the slashes, one more than there are slashes. */
  function Split(s: string): (parts: seq<string>)
    ensures |parts| == Count(s, '/') + 1
  {
    if s == [] then [""] else SplitStep(Split(s[..|s| - 1]), s[|s| - 1])
  }

  /** The pieces after one more character: a slash starts a new piece, anything else extends the last one. */
  function SplitStep(parts: seq<string>, c: char): (r: seq<string>)
    requires |parts| > 0
    ensures |r| == |parts| + (if c == '/' then 1 else 0)
  {
    if c == '/' then parts + [""] else parts[..|parts| - 1] + [parts[|parts| - 1] + [c]]
  }

  /** `'/'.join(parts)`. */
  function Join(parts: seq<string>): string
    requires |parts| > 0
  {
    if |parts| == 1 then parts[0] else Join(parts[..|parts| - 1]) + "/" + parts[|parts| - 1]
  }

  /** Round trip: joining the pieces of a split with slashes gives the string back. */
  lemma {:induction false} SplitJoin(s: string)
    ensures Join(Split(s)) == s
  {
    if s != [] {
      var init := s[..|s| - 1];
      var c := s[|s| - 1];
      SplitJoin(init);
      var p := Split(init);
      SplitSnoc(init, c);
      assert s == init + [c];
      if c == '/' {
        assert Split(s) == p + [""];
        assert (p + [""])[..|p|] == p;
        assert s == init + "/" + "";
      } else {
        var q := p[..|p| - 1];
        var x := p[|p| - 1] + [c];
        assert Split(s) == q + [x];
        if |p| == 1 {
          assert Join(q + [x]) == x;
        } else {
          assert (q + [x])[..|q|] == q;
          assert Join(q + [x]) == Join(q) + "/" + x;
          assert Join(p) == Join(q) + "/" + p[|p| - 1];
        }
      }
    }
  }

  /** `s.split('/')[-1]`: the piece after the last slash. */
  function LastPiece(s: string): string {
    var parts := Split(s);
    parts[|parts| - 1]
  }

  /**
   * The last piece is the longest end of `s` free of slashes: a slash
   * stands just before it, unless it is the whole string.
   */
  lemma {:induction false} LastPieceIsTail(s: string)
    ensures var t := LastPiece(s);
      && |t| <= |s| && t == s[|s| - |t|..] && '/' !in t
      && (|t| < |s| ==> s[|s| - |t| - 1] == '/')
  {
    if s != [] {
      var init := s[..|s| - 1];
      LastPieceIsTail(init);
      var c := s[|s| - 1];
      var t0 := LastPiece(init);
      if c != '/' {
        assert LastPiece(s) == t0 + [c];
        assert s == init + [c];
      }
    }
  }

  /** A string without slashes is a single piece. */
  lemma {:induction false} SplitNoSlash(s: string)
    requires '/' !in s
    ensures Split(s) == [s]
  {
    if s != [] {
      var init := s[..|s| - 1];
      assert '/' !in init by {
        forall i | 0 <= i < |init| ensures init[i] != '/' {
          assert init[i] == s[i];
        }
      }
      SplitNoSlash(init);
      SplitSnoc(init, s[|s| - 1]);
      assert s == init + [s[|s| - 1]];
    }
  }

  /** Splitting a string with one more character at its end. */
  lemma SplitSnoc(s: string, c: char)
    ensures Split(s + [c]) == SplitStep(Split(s), c)
  {
    assert (s + [c])[..|s|] == s;
  }

  /** The step only touches the last piece, so earlier pieces can be set aside. */
  lemma SplitStepAppend(p: seq<string>, q: seq<string>, c: char)
    requires |q| > 0
    ensures SplitStep(p + q, c) == p + SplitStep(q, c)
  {
    if c != '/' {
      assert (p + q)[..|p + q| - 1] == p + q[..|q| - 1];
    }
  }

  /** Splitting at a slash between two strings splits both halves. */
  lemma {:induction false} SplitAround(a: string, b: string)
    ensures Split(a + "/" + b) == Split(a) + Split(b)
  {
    if b == [] {
      SplitSnoc(a, '/');
      assert a + "/" + b == a + ['/'];
    } else {
      var init := b[..|b| - 1];
      var c := b[|b| - 1];
      SplitAround(a, init);
      SplitSnoc(a + "/" + init, c);
      SplitSnoc(init, c);
      assert a + "/" + b == (a + "/" + init) + [c] && b == init + [c];
      SplitStepAppend(Split(a), Split(init), c);
    }
  }

  /** Round trip the other way: pieces free of slashes, joined with slashes, split back into the same pieces. */
  lemma {:induction false} JoinSplit(parts: seq<string>)
    requires |parts| > 0 && forall i :: 0 <= i < |parts| ==> '/' !in parts[i]
    ensures Split(Join(parts)) == parts
  {
    var last := parts[|parts| - 1];
    SplitNoSlash(last);
    if |parts| > 1 {
      var init := parts[..|parts| - 1];
      JoinSplit(init);
      SplitAround(Join(init), last);
      assert parts == init + [last];
    }
  }

  /** `s.rstrip('/')`: `s` without the slashes at its end. */
  function RStripSlash(s: string): (r: string)
    ensures |r| <= |s| && r == s[..|r|]
    ensures r == [] || r[|r| - 1] != '/'
    ensures forall i :: |r| <= i < |s| ==> s[i] == '/'
  {
    if |s| > 0 && s[|s| - 1] == '/' then RStripSlash(s[..|s| - 1]) else s
  }

  // ---------------------------------------------------------------------
  // validate_link and get_anime_title
  // ---------------------------------------------------------------------

  /** `s.endswith('/')`. */
  predicate EndsWithSlash(s: string) {
    |s| > 0 && s[|s| - 1] == '/'
  }

  /**
   * What `validate_link` leaves in `args.link`: an absent or empty link is
   * kept, one with five slashes is kept, one with six that ends in a slash
   * loses its trailing slashes, and any other becomes None.
   */
  function ValidatedLink(link: Option<string>): Option<string> {
    if !TruthyStr(link) then link
    else if Count(link.value, '/') == 5 then link
    else if Count(link.value, '/') == 6 && EndsWithSlash(link.value) then Some(RStripSlash(link.value))
    else None
  }

  /**
   * A non-empty link survives exactly when it has five slashes, or six
   * and a slash at the end; what survives is a beginning of it with at
   * most five slashes, and exactly five with the one trailing slash gone
   * when only one slash ended it.
   */
  lemma ValidatedLinkShape(s: string)
    requires s != ""
    ensures var r := ValidatedLink(Some(s));
      && (r.Some? <==> Count(s, '/') == 5 || (Count(s, '/') == 6 && EndsWithSlash(s)))
      && (r.Some? ==> |r.value| <= |s| && r.value == s[..|r.value|] && Count(r.value, '/') <= 5)
      && (Count(s, '/') == 6 && EndsWithSlash(s) && s[|s| - 2] != '/' ==>
            r == Some(s[..|s| - 1]) && Count(s[..|s| - 1], '/') == 5)
  {
    if Count(s, '/') == 6 && EndsWithSlash(s) {
      var r := RStripSlash(s);
      CountAppend(r, s[|r|..], '/');
      assert s == r + s[|r|..];
      assert Count(s[|r|..], '/') >= 1 by {
        var tail := s[|r|..];
        assert tail[..|tail| - 1] + [tail[|tail| - 1]] == tail;
      }
      if s[|s| - 2] != '/' {
        assert |r| == |s| - 1;
        assert s == s[..|s| - 1] + [s[|s| - 1]];
      }
    }
  }

  /** A double slash at the end of a link. */
  predicate EndsWithDoubleSlash(link: Option<string>) {
    link.Some? && |link.value| >= 2 && link.value[|link.value| - 2] == '/' && link.value[|link.value| - 1] == '/'
  }

  /** Checking a checked link changes nothing, unless the link ended in two slashes. */
  lemma ValidatedLinkIdempotent(link: Option<string>)
    requires !EndsWithDoubleSlash(link)
    ensures ValidatedLink(ValidatedLink(link)) == ValidatedLink(link)
  {
    if TruthyStr(link) {
      ValidatedLinkShape(link.value);
    }
  }

  /**
   * Why the exception is needed: a link with four slashes followed by two
   * more passes, but what is left of it, the four-slash link, would not.
   */
  lemma ValidatedLinkDoubleSlash(s: string)
    requires Count(s, '/') == 4 && !EndsWithSlash(s)
    ensures ValidatedLink(Some(s + "//")) == Some(s)
    ensures ValidatedLink(Some(s)) == None
  {
    CountAppend(s, "//", '/');
    assert Count("//", '/') == 2 by {
      assert "//"[..1] == "/";
      assert "/"[..0] == "";
    }
    var t := s + "//";
    assert t[..|t| - 1] == s + "/" && (s + "/")[..|s|] == s;
    assert RStripSlash(s + "/") == s;
  }

  /**
   * What `get_anime_title` returns: the last piece of the link, else the
   * slug, else piece 5 of the first episode URL (IndexError when it has
   * fewer pieces), else None.
   */
  function AnimeTitle(link: Option<string>, slug: Option<string>, episode: Option<seq<string>>): Result<Option<string>> {
    if TruthyStr(link) then Ok(Some(LastPiece(link.value)))
    else if TruthyStr(slug) then Ok(slug)
    else if episode.Some? && |episode.value| > 0 then
      var parts := Split(episode.value[0]);
      if |parts| > 5 then Ok(Some(parts[5])) else Raised(IndexError)
    else Ok(None)
  }

  /**
   * The episode URL `handle_query` builds from a slug, a season and an
   * episode number, "https://aniworld.to/anime/stream/<slug>/staffel-<s>/episode-<e>",
   * written as its pieces joined with slashes.
   */
  function EpisodeUrl(slug: string, season: nat, episode: nat): string {
    Join(["https:", "", "aniworld.to", "anime", "stream", slug,
          "staffel-" + Config.Digits(season), "episode-" + Config.Digits(episode)])
  }

  lemma {:induction false} DigitsNoSlash(n: nat)
    ensures '/' !in Config.Digits(n)
  {
    if n >= 10 {
      DigitsNoSlash(n / 10);
    }
  }

  /**
   * Round trip: from an episode URL that `handle_query` builds,
   * `get_anime_title` recovers the slug it was built from.
   */
  lemma EpisodeUrlTitle(slug: string, season: nat, episode: nat)
    requires '/' !in slug
    ensures AnimeTitle(None, None, Some([EpisodeUrl(slug, season, episode)])) == Ok(Some(slug))
  {
    var st := "staffel-" + Config.Digits(season);
    var ep := "episode-" + Config.Digits(episode);
    DigitsNoSlash(season);
    DigitsNoSlash(episode);
    assert '/' !in st && '/' !in ep by {
      assert forall i :: 8 <= i < |st| ==> st[i] == Config.Digits(season)[i - 8];
      assert forall i :: 8 <= i < |ep| ==> ep[i] == Config.Digits(episode)[i - 8];
    }
    var parts := ["https:", "", "aniworld.to", "anime", "stream", slug, st, ep];
    assert forall i :: 0 <= i < 5 ==> '/' !in parts[i];
    JoinSplit(parts);
  }

  /** The slug taken from a link is the link's end after its last slash. */
  lemma LinkTitle(link: string)
    requires link != ""
    ensures var r := AnimeTitle(Some(link), None, None);
      && r.Ok? && r.value.Some? && |r.value.value| <= |link|
      && var t := r.value.value;
      t == link[|link| - |t|..] && '/' !in t && (|t| < |link| ==> link[|link| - |t| - 1] == '/')
  {
    LastPieceIsTail(link);
  }

  /** The parsed command line, as far as the helpers read and write it. */
  class Args {
    var link: Option<string>
    var slug: Option<string>
    var episode: Option<seq<string>>

    constructor(link: Option<string>, slug: Option<string>, episode: Option<seq<string>>)
      ensures this.link == link && this.slug == slug && this.episode == episode
    {
      this.link := link;
      this.slug := slug;
      this.episode := episode;
    }

    /** `validate_link(args)`: rewrites the link in place. */
    method ValidateLink()
      modifies this`link
      ensures link == ValidatedLink(old(link))
    {
      if TruthyStr(link) {
        var slashes := Count(link.value, '/');
        if slashes == 5 {
        } else if slashes == 6 && EndsWithSlash(link.value) {
          link := Some(RStripSlash(link.value));
        } else {
          link := None;
        }
      }
    }

    /** `get_anime_title(args)`. */
    method GetAnimeTitle() returns (r: Result<Option<string>>)
      ensures r == AnimeTitle(link, slug, episode)
    {
      if TruthyStr(link) {
        var parts := Split(link.value);
        return Ok(Some(parts[|parts| - 1]));
      }
      if TruthyStr(slug) {
        return Ok(slug);
      }
      if episode.Some? && |episode.value| > 0 {
        var parts := Split(episode.value[0]);
        if |parts| <= 5 {
          return Raised(IndexError);
        }
        return Ok(Some(parts[5]));
      }
      return Ok(None);
    }
  }

  // ---------------------------------------------------------------------
  // check_other_extractors
  // ---------------------------------------------------------------------

  /** The site whose extractor an episode URL goes to; Aniworld means it is returned to the caller. */
  datatype Extractor = Jav | Nhentai | Streamkiste | Hanime | Aniworld

  predicate StartsWith(s: string, prefix: string) {
    |prefix| <= |s| && s[..|prefix|] == prefix
  }

  /** The first prefix test that matches decides the site. */
  function Route(url: string): Extractor {
    if StartsWith(url, "https://jav.guru/") then Jav
    else if StartsWith(url, "https://nhentai.net/g/") then Nhentai
    else if StartsWith(url, "https://streamkiste.tv/movie/") then Streamkiste
    else if StartsWith(url, "https://hanime.tv/videos/hentai/") then Hanime
    else Aniworld
  }

  /** The URLs routed to `e`, in input order. */
  function Routed(urls: seq<string>, e: Extractor): (r: seq<string>)
    ensures |r| <= |urls|
  {
    if urls == [] then []
    else
      var init := urls[..|urls| - 1];
      var u := urls[|urls| - 1];
      if Route(u) == e then Routed(init, e) + [u] else Routed(init, e)
  }

  /** A URL is among those routed to `e` exactly when it is one of `urls` and its prefix names `e`. */
  lemma {:induction false} RoutedMembers(urls: seq<string>, e: Extractor)
    ensures forall u :: u in Routed(urls, e) <==> u in urls && Route(u) == e
  {
    if urls != [] {
      var init := urls[..|urls| - 1];
      RoutedMembers(init, e);
      assert urls == init + [urls[|urls| - 1]];
    }
  }

  /** Routing one more URL adds it to its own site's list and leaves the others alone. */
  lemma RoutedSnoc(init: seq<string>, u: string, e: Extractor)
    ensures Routed(init + [u], e) == if Route(u) == e then Routed(init, e) + [u] else Routed(init, e)
  {
    assert (init + [u])[..|init|] == init;
  }

  /** The five lists of `check_other_extractors` split the input: every URL lands in exactly one of them. */
  lemma {:induction false} RoutedPartition(urls: seq<string>)
    ensures multiset(urls) == multiset(Routed(urls, Jav)) + multiset(Routed(urls, Nhentai))
                              + multiset(Routed(urls, Hanime)) + multiset(Routed(urls, Streamkiste))
                              + multiset(Routed(urls, Aniworld))
  {
    if urls != [] {
      var init := urls[..|urls| - 1];
      var u := urls[|urls| - 1];
      RoutedPartition(init);
      assert urls == init + [u];
      assert multiset(urls) == multiset(init) + multiset{u};
      RoutedSnoc(init, u, Jav);
      RoutedSnoc(init, u, Nhentai);
      RoutedSnoc(init, u, Hanime);
      RoutedSnoc(init, u, Streamkiste);
      RoutedSnoc(init, u, Aniworld);
      var e := Route(u);
      assert multiset(Routed(urls, e)) == multiset(Routed(init, e)) + multiset{u};
    }
  }

  /** One call of an extractor on a URL. */
  datatype Call = Call(extractor: Extractor, url: string)

  /** The calls of one of the loops that hand URLs to an extractor. */
  function Calls(e: Extractor, urls: seq<string>): (r: seq<Call>)
    ensures |r| == |urls| && forall i :: 0 <= i < |urls| ==> r[i] == Call(e, urls[i])
  {
    seq(|urls|, i requires 0 <= i < |urls| => Call(e, urls[i]))
  }

  /** The URLs of a sequence of calls, in order. */
  function CalledUrls(calls: seq<Call>): (r: seq<string>)
    ensures |r| == |calls| && forall i :: 0 <= i < |calls| ==> r[i] == calls[i].url
  {
    seq(|calls|, i requires 0 <= i < |calls| => calls[i].url)
  }

  /**
   * The extractor calls `check_other_extractors` makes: the jav URLs, then
   * nhentai, then hanime, then streamkiste, each group in input order.
   */
  function Dispatched(urls: seq<string>): seq<Call> {
    Calls(Jav, Routed(urls, Jav)) + Calls(Nhentai, Routed(urls, Nhentai))
    + Calls(Hanime, Routed(urls, Hanime)) + Calls(Streamkiste, Routed(urls, Streamkiste))
  }

  /**
   * Every URL is either handed to exactly one extractor, the one its
   * prefix names, or returned: the calls and the returned list together
   * hold each input URL as often as the input does.
   */
  lemma DispatchedOrReturned(urls: seq<string>)
    ensures forall c :: c in Dispatched(urls) ==> Route(c.url) == c.extractor
    ensures multiset(CalledUrls(Dispatched(urls))) + multiset(Routed(urls, Aniworld)) == multiset(urls)
  {
    RoutedMembers(urls, Jav);
    RoutedMembers(urls, Nhentai);
    RoutedMembers(urls, Hanime);
    RoutedMembers(urls, Streamkiste);
    var jav := Calls(Jav, Routed(urls, Jav));
    var nh := Calls(Nhentai, Routed(urls, Nhentai));
    var ha := Calls(Hanime, Routed(urls, Hanime));
    var sk := Calls(Streamkiste, Routed(urls, Streamkiste));
    CalledUrlsAppend(jav, nh);
    CalledUrlsAppend(jav + nh, ha);
    CalledUrlsAppend(jav + nh + ha, sk);
    assert CalledUrls(jav) == Routed(urls, Jav);
    assert CalledUrls(nh) == Routed(urls, Nhentai);
    assert CalledUrls(ha) == Routed(urls, Hanime);
    assert CalledUrls(sk) == Routed(urls, Streamkiste);
    RoutedPartition(urls);
  }

  lemma CalledUrlsAppend(a: seq<Call>, b: seq<Call>)
    ensures CalledUrls(a + b) == CalledUrls(a) + CalledUrls(b)
  {
  }

  /** One of the loops that call an extractor: each URL in turn. */
  method CallExtractor(e: Extractor, urls: seq<string>) returns (calls: seq<Call>)
    ensures calls == Calls(e, urls)
  {
    calls := [];
    for i := 0 to |urls|
      invariant calls == Calls(e, urls[..i])
    {
      calls := calls + [Call(e, urls[i])];
    }
    assert urls[..|urls|] == urls;
  }

  /**
   * `check_other_extractors`: sorts the URLs into the four other sites'
   * lists and the remaining ones, hands each list to its extractor (the
   * calls are returned rather than made), and returns the remaining URLs.
   */
  method CheckOtherExtractors(episodeUrls: seq<string>) returns (remaining: seq<string>, calls: seq<Call>)
    ensures remaining == Routed(episodeUrls, Aniworld)
    ensures calls == Dispatched(episodeUrls)
  {
    var jav, nhentai, streamkiste, hanime := [], [], [], [];
    remaining := [];
    for i := 0 to |episodeUrls|
      invariant jav == Routed(episodeUrls[..i], Jav)
      invariant nhentai == Routed(episodeUrls[..i], Nhentai)
      invariant streamkiste == Routed(episodeUrls[..i], Streamkiste)
      invariant hanime == Routed(episodeUrls[..i], Hanime)
      invariant remaining == Routed(episodeUrls[..i], Aniworld)
    {
      var episode := episodeUrls[i];
      assert episodeUrls[..i + 1][..i] == episodeUrls[..i];
      if StartsWith(episode, "https://jav.guru/") {
        jav := jav + [episode];
      } else if StartsWith(episode, "https://nhentai.net/g/") {
        nhentai := nhentai + [episode];
      } else if StartsWith(episode, "https://streamkiste.tv/movie/") {
        streamkiste := streamkiste + [episode];
      } else if StartsWith(episode, "https://hanime.tv/videos/hentai/") {
        hanime := hanime + [episode];
      } else {
        remaining := remaining + [episode];
      }
    }
    assert episodeUrls[..|episodeUrls|] == episodeUrls;
    var c1 := CallExtractor(Jav, jav);
    var c2 := CallExtractor(Nhentai, nhentai);
    var c3 := CallExtractor(Hanime, hanime);
    var c4 := CallExtractor(Streamkiste, streamkiste);
    calls := c1 + c2 + c3 + c4;
  }

  // ---------------------------------------------------------------------
  // Language codes
  // ---------------------------------------------------------------------

  /** `EpisodeForm.get_language_code`: the numeric code of the three languages it knows, else "". */
  function LanguageId(language: string): string {
    if language == "German Dub" then "1"
    else if language == "English Sub" then "2"
    else if language == "German Sub" then "3"
    else ""
  }

  /** The language a numeric code stands for. */
  function LanguageOfId(id: string): Option<string> {
    if id == "1" then Some("German Dub")
    else if id == "2" then Some("English Sub")
    else if id == "3" then Some("German Sub")
    else None
  }

  /** The numeric code is "" exactly for the languages it does not know, and decodes back to the language otherwise. */
  lemma LanguageIdRoundTrip(language: string)
    ensures LanguageId(language) == "" <==> language !in ["German Dub", "English Sub", "German Sub"]
    ensures LanguageId(language) != "" ==> LanguageOfId(LanguageId(language)) == Some(language)
    ensures LanguageOfId("") == None
  {
  }

  /**
   * The `lang_code` of `on_ok`: the short codes away from Windows, where
   * anything else, German Dub included, is "ger"; the numeric code on
   * Windows.
   */
  function LangCode(language: string, windows: bool): string {
    var code :=
      if language == "Japanese Dub" then "jap"
      else if language == "English Sub" then "en"
      else if language == "German Sub" then "ger-sub"
      else "ger";
    if windows then LanguageId(language) else code
  }

  /** The language a short code stands for. */
  function LanguageOfCode(code: string): Option<string> {
    if code == "jap" then Some("Japanese Dub")
    else if code == "en" then Some("English Sub")
    else if code == "ger-sub" then Some("German Sub")
    else if code == "ger" then Some("German Dub")
    else None
  }

  /**
   * Away from Windows the code decodes back to the chosen language for the
   * four the form offers, and every other language gets German Dub's code;
   * on Windows the numeric code is used, which has none for Japanese Dub.
   */
  lemma LangCodeRoundTrip(language: string, windows: bool)
    ensures !windows && language in ["Japanese Dub", "English Sub", "German Sub", "German Dub"] ==>
              LanguageOfCode(LangCode(language, false)) == Some(language)
    ensures !windows && language !in ["Japanese Dub", "English Sub", "German Sub"] ==>
              LangCode(language, false) == LangCode("German Dub", false)
    ensures windows ==> LangCode(language, true) == LanguageId(language)
    ensures LangCode("Japanese Dub", true) == ""
  {
  }

  // ---------------------------------------------------------------------
  // format_anime_title
  // ---------------------------------------------------------------------

  /** The characters `str.title()` changes the case of (the ASCII letters). */
  predicate IsCased(c: char) {
    'A' <= c <= 'Z' || 'a' <= c <= 'z'
  }

  function UpperChar(c: char): char {
    if 'a' <= c <= 'z' then (c as int - 32) as char else c
  }

  /** `str.title()` at position `i`: a letter that starts a run of letters is upper-cased, every other letter lower-cased. */
  function TitleAt(s: string, i: nat): char
    requires i < |s|
  {
    if !IsCased(s[i]) then s[i]
    else if i == 0 || !IsCased(s[i - 1]) then UpperChar(s[i])
    else LowerChar(s[i])
  }

  /** `str.title()`. */
  function Title(s: string): (r: string)
    ensures |r| == |s| && forall i :: 0 <= i < |s| ==> r[i] == TitleAt(s, i)
  {
    seq(|s|, i requires 0 <= i < |s| => TitleAt(s, i))
  }

  /** `s.replace(a, b)` for single characters. */
  function ReplaceChar(s: string, a: char, b: char): (r: string)
    ensures |r| == |s| && forall i :: 0 <= i < |s| ==> r[i] == if s[i] == a then b else s[i]
  {
    seq(|s|, i requires 0 <= i < |s| => if s[i] == a then b else s[i])
  }

  /** `format_anime_title`: hyphens become spaces, then every word is capitalised. */
  function FormatAnimeTitle(slug: string): string {
    Title(ReplaceChar(slug, '-', ' '))
  }

  /** Title-casing changes only case: it keeps the length, the non-letters, and the text up to case. */
  lemma TitleOnlyChangesCase(s: string)
    ensures Lower(Title(s)) == Lower(s)
    ensures forall i :: 0 <= i < |s| ==> (IsCased(Title(s)[i]) <==> IsCased(s[i]))
  {
  }

  /** Title-casing twice is title-casing once. */
  lemma TitleIdempotent(s: string)
    ensures Title(Title(s)) == Title(s)
  {
    TitleOnlyChangesCase(s);
  }

  /**
   * The formatted title has no hyphens, and each of its words starts
   * with a capital and continues in lower case.
   */
  lemma FormattedTitleShape(slug: string)
    ensures var t := FormatAnimeTitle(slug);
      && |t| == |slug| && '-' !in t
      && (forall i :: 0 <= i < |t| && IsCased(t[i]) && (i == 0 || !IsCased(t[i - 1])) ==> 'A' <= t[i] <= 'Z')
      && (forall i :: 0 < i < |t| && IsCased(t[i]) && IsCased(t[i - 1]) ==> 'a' <= t[i] <= 'z')
  {
    var s := ReplaceChar(slug, '-', ' ');
    TitleOnlyChangesCase(s);
  }

  /** A slug as the site writes them: no spaces and no capitals. */
  predicate PlainSlug(slug: string) {
    forall i :: 0 <= i < |slug| ==> slug[i] != ' ' && !('A' <= slug[i] <= 'Z')
  }

  /** Round trip: for a plain slug, the title lower-cased with its spaces turned back into hyphens is the slug. */
  lemma FormatAnimeTitleRoundTrip(slug: string)
    requires PlainSlug(slug)
    ensures Lower(ReplaceChar(FormatAnimeTitle(slug), ' ', '-')) == slug
  {
    var s := ReplaceChar(slug, '-', ' ');
    TitleOnlyChangesCase(s);
    var back := Lower(ReplaceChar(FormatAnimeTitle(slug), ' ', '-'));
    forall i | 0 <= i < |slug|
      ensures back[i] == slug[i]
    {
      assert LowerChar(Title(s)[i]) == LowerChar(s[i]);
    }
  }
}
