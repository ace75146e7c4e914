/**
 * The TVRage episode catalog client: show search, the cached episode-list
 * fetch, the season filter with its out-of-bounds error, and the deep links
 * to a show's episode-list page. Remote documents are given already parsed.
 */
module TVRage {
  import opened Wrappers
  import opened JavaInt

  const Host: string := "www.tvrage.com"

  /** A search hit: the display name, the numeric show id and the show's page. */
  datatype SearchResult = TVRageSearchResult(name: string, showId: Int32, link: string)

  /** Season and episode numbers keep their text: specials are not numeric. */
  datatype Episode = Episode(seriesName: string, seasonNumber: string, episodeNumber: string, title: string)

  /** One `Results/show` node of the search document. */
  datatype ShowNode = ShowNode(showid: string, name: string, link: string)

  /** One `Show/Episodelist/Season/episode` node, with its parent Season's `no` attribute. */
  datatype EpisodeNode = EpisodeNode(seasonNo: string, seasonNum: string, title: string)

  /** The episode-list document: the `Show/name` text and its episode nodes in document order. */
  datatype EpisodeListDocument = EpisodeListDocument(seriesName: string, episodes: seq<EpisodeNode>)

  /** What the document fetcher delivers: a parsed document, or a transport/parse failure. */
  datatype Fetch<D> = Fetched(document: D) | TransportFailed(message: string)

  datatype LookupError =
    | LookupFailed(message: string)
    | IllegalNumber(text: string)
    | SeasonOutOfBounds(seriesName: string, season: Int32, maxSeason: Int32)

  // ---------------------------------------------------------------------
  // Title clean-up: String.replace("&amp;", "&")
  // ---------------------------------------------------------------------

  /** Replaces every "&amp;", scanning left to right without overlap, by "&". */
  function UnescapeAmp(s: string): (r: string)
    ensures |r| <= |s|
  {
    if |s| >= 5 && s[..5] == "&amp;" then "&" + UnescapeAmp(s[5..])
    else if s == [] then []
    else [s[0]] + UnescapeAmp(s[1..])
  }

  /** The inverse direction: every '&' written as "&amp;". */
  function EscapeAmp(s: string): (r: string)
  {
    if s == [] then []
    else (if s[0] == '&' then "&amp;" else [s[0]]) + EscapeAmp(s[1..])
  }

  lemma {:induction false} UnescapeEscapeAmp(s: string)
    ensures UnescapeAmp(EscapeAmp(s)) == s
  {
    if s != [] {
      var rest := EscapeAmp(s[1..]);
      UnescapeEscapeAmp(s[1..]);
      if s[0] == '&' {
        var t := "&amp;" + rest;
        assert t[..5] == "&amp;" && t[5..] == rest;
      } else {
        var t := [s[0]] + rest;
        assert t[1..] == rest;
      }
    }
  }

  /** An "&amp;" starts at position `i` of `s`. */
  predicate EntityAt(s: string, i: int)
  {
    0 <= i && i + 5 <= |s| && s[i..i + 5] == "&amp;"
  }

  /** Text with no "&amp;" in it, a bare '&' included, is left unchanged. */
  lemma {:induction false} UnescapeAmpWithoutEntity(s: string)
    requires forall i :: !EntityAt(s, i)
    ensures UnescapeAmp(s) == s
  {
    if s != [] {
      assert !EntityAt(s, 0);
      if |s| >= 5 {
        assert s[..5] == s[0..0 + 5];
      }
      var t := s[1..];
      forall i ensures !EntityAt(t, i) {
        assert !EntityAt(s, i + 1);
        if 0 <= i && i + 5 <= |t| {
          assert t[i..i + 5] == s[i + 1..(i + 1) + 5];
        }
      }
      UnescapeAmpWithoutEntity(t);
      assert UnescapeAmp(s) == [s[0]] + t;
      assert [s[0]] + t == s;
    }
  }

  /** A title holding a bare '&' after XML decoding keeps it. */
  lemma UnescapeAmpBareAmpersand()
    ensures UnescapeAmp("Tom & Jerry") == "Tom & Jerry"
  {
    var s := "Tom & Jerry";
    forall i ensures !EntityAt(s, i) {
      if 0 <= i && i + 5 <= |s| {
        assert s[i..i + 5][0] != "&amp;"[0] || s[i..i + 5][1] != "&amp;"[1];
      }
    }
    UnescapeAmpWithoutEntity(s);
  }

  // ---------------------------------------------------------------------
  // Cache key and deep links
  // ---------------------------------------------------------------------

  /** `new URL("http", host, "/feeds/episode_list.php?sid=" + showId).toString()`. */
  function CacheKey(showId: Int32): string
  {
    "http://" + Host + "/feeds/episode_list.php?sid=" + IntToString(showId)
  }

  /** The cache key names the show id and nothing else: equal keys, equal ids. */
  lemma CacheKeyIdentifiesShow(a: Int32, b: Int32)
    ensures CacheKey(a) == CacheKey(b) <==> a == b
  {
    var prefix := "http://" + Host + "/feeds/episode_list.php?sid=";
    if CacheKey(a) == CacheKey(b) {
      assert CacheKey(a)[|prefix|..] == IntToString(a);
      assert CacheKey(b)[|prefix|..] == IntToString(b);
      IntToStringInjective(a, b);
    }
  }

  function EpisodeListLinkFor(searchResult: SearchResult, seasonString: string): string
  {
    searchResult.link + "/episode_list/" + seasonString
  }

  /** The link to the page listing every season. */
  function EpisodeListLink(searchResult: SearchResult): (link: string)
    ensures link == searchResult.link + "/episode_list/all"
  {
    EpisodeListLinkFor(searchResult, "all")
  }

  /** The link to one season's page: the season written in decimal. */
  function SeasonEpisodeListLink(searchResult: SearchResult, season: Int32): (link: string)
    ensures |link| > |searchResult.link + "/episode_list/"|
    ensures link[..|searchResult.link + "/episode_list/"|] == searchResult.link + "/episode_list/"
    ensures link == searchResult.link + "/episode_list/" + IntToString(season)
  {
    EpisodeListLinkFor(searchResult, IntToString(season))
  }

  /** The last segment of a season link parses back to the season. */
  lemma SeasonLinkNamesSeason(searchResult: SearchResult, season: Int32)
    ensures var prefix := searchResult.link + "/episode_list/";
      ParseInt(SeasonEpisodeListLink(searchResult, season)[|prefix|..]) == Some(season)
  {
    var prefix := searchResult.link + "/episode_list/";
    assert SeasonEpisodeListLink(searchResult, season)[|prefix|..] == IntToString(season);
    ParseIntOfIntToString(season);
  }

  /** Different seasons have different links, and none is the all-seasons link. */
  lemma SeasonLinksDistinct(searchResult: SearchResult, a: Int32, b: Int32)
    ensures SeasonEpisodeListLink(searchResult, a) == SeasonEpisodeListLink(searchResult, b) <==> a == b
    ensures SeasonEpisodeListLink(searchResult, a) != EpisodeListLink(searchResult)
  {
    var prefix := searchResult.link + "/episode_list/";
    var la, lb := SeasonEpisodeListLink(searchResult, a), SeasonEpisodeListLink(searchResult, b);
    assert la[|prefix|..] == IntToString(a);
    assert lb[|prefix|..] == IntToString(b);
    IntToStringInjective(a, b);
    var all := EpisodeListLink(searchResult);
    assert all[|prefix|..] == "all";
    assert IntToString(a) != "all" by {
      IntToStringSign(a);
      if a >= 0 { assert IsDigit(IntToString(a)[0]); }
      assert IntToString(a)[0] != "all"[0];
    }
  }

  // ---------------------------------------------------------------------
  // Episode-list parsing
  // ---------------------------------------------------------------------

  function ToEpisode(seriesName: string, node: EpisodeNode): Episode
  {
    Episode(seriesName, node.seasonNo, node.seasonNum, UnescapeAmp(node.title))
  }

  /** The episodes of a document, built node by node in document order. */
  function ParsedEpisodes(seriesName: string, nodes: seq<EpisodeNode>): seq<Episode>
  {
    if nodes == [] then []
    else ParsedEpisodes(seriesName, nodes[..|nodes| - 1]) + [ToEpisode(seriesName, nodes[|nodes| - 1])]
  }

  /** One episode per node, in document order, carrying the series name and its Season's `no`. */
  lemma {:induction false} ParsedEpisodesAt(seriesName: string, nodes: seq<EpisodeNode>)
    ensures |ParsedEpisodes(seriesName, nodes)| == |nodes|
    ensures forall i :: 0 <= i < |nodes| ==>
      var e := ParsedEpisodes(seriesName, nodes)[i];
      && e.seriesName == seriesName
      && e.seasonNumber == nodes[i].seasonNo
      && e.episodeNumber == nodes[i].seasonNum
      && e.title == UnescapeAmp(nodes[i].title)
  {
    if nodes != [] {
      ParsedEpisodesAt(seriesName, nodes[..|nodes| - 1]);
    }
  }

  /** The loop of `getEpisodeList` that turns episode nodes into episodes. */
  method ParseEpisodeList(document: EpisodeListDocument) returns (episodes: seq<Episode>)
    ensures episodes == ParsedEpisodes(document.seriesName, document.episodes)
  {
    var nodes := document.episodes;
    episodes := [];
    var i := 0;
    while i < |nodes|
      invariant 0 <= i <= |nodes|
      invariant episodes == ParsedEpisodes(document.seriesName, nodes[..i])
    {
      assert nodes[..i + 1][..i] == nodes[..i];
      var node := nodes[i];
      var title := UnescapeAmp(node.title);
      episodes := episodes + [Episode(document.seriesName, node.seasonNo, node.seasonNum, title)];
      i := i + 1;
    }
    assert nodes[..i] == nodes;
  }

  // ---------------------------------------------------------------------
  // Season filter
  // ---------------------------------------------------------------------

  /** `Integer.parseInt(episode.getSeasonNumber())`, `None` for a non-numeric season. */
  function SeasonNumber(episode: Episode): Option<Int32>
  {
    ParseInt(episode.seasonNumber)
  }

  /** The episodes whose season parses to `season`, in catalog order. */
  function SeasonEpisodes(episodes: seq<Episode>, season: Int32): seq<Episode>
  {
    if episodes == [] then []
    else
      var last := episodes[|episodes| - 1];
      SeasonEpisodes(episodes[..|episodes| - 1], season) + (if SeasonNumber(last) == Some(season) then [last] else [])
  }

  /** The largest parsed season, or 0 when there is none above 0. */
  function MaxSeason(episodes: seq<Episode>): Int32
  {
    if episodes == [] then 0
    else
      var m := MaxSeason(episodes[..|episodes| - 1]);
      match SeasonNumber(episodes[|episodes| - 1])
      case Some(n) => if n > m then n else m
      case None => m
  }

  /**
   * Exactly the episodes of the season, each as often as in the catalog;
   * an episode with a non-numeric season is in no season's list.
   */
  lemma {:induction false} SeasonEpisodesExact(episodes: seq<Episode>, season: Int32, e: Episode)
    ensures multiset(SeasonEpisodes(episodes, season))[e] ==
      if SeasonNumber(e) == Some(season) then multiset(episodes)[e] else 0
  {
    if episodes != [] {
      var init := episodes[..|episodes| - 1];
      SeasonEpisodesExact(init, season, e);
      assert episodes == init + [episodes[|episodes| - 1]];
    }
  }

  /** Filtering keeps catalog order: it distributes over concatenation. */
  lemma {:induction false} SeasonEpisodesAppend(a: seq<Episode>, b: seq<Episode>, season: Int32)
    ensures SeasonEpisodes(a + b, season) == SeasonEpisodes(a, season) + SeasonEpisodes(b, season)
  {
    if b != [] {
      var binit := b[..|b| - 1];
      assert (a + b)[..|a + b| - 1] == a + binit;
      SeasonEpisodesAppend(a, binit, season);
    } else {
      assert a + b == a;
    }
  }

  /** MaxSeason is 0 or a parsed season, and no parsed season is above it. */
  lemma {:induction false} MaxSeasonIsMaximum(episodes: seq<Episode>)
    ensures MaxSeason(episodes) >= 0
    ensures forall i :: 0 <= i < |episodes| && SeasonNumber(episodes[i]).Some? ==>
      SeasonNumber(episodes[i]).value <= MaxSeason(episodes)
    ensures MaxSeason(episodes) == 0 ||
      exists i :: 0 <= i < |episodes| && SeasonNumber(episodes[i]) == Some(MaxSeason(episodes))
  {
    if episodes != [] {
      var init := episodes[..|episodes| - 1];
      MaxSeasonIsMaximum(init);
      assert forall i :: 0 <= i < |init| ==> init[i] == episodes[i];
      if MaxSeason(episodes) != 0 && MaxSeason(episodes) == MaxSeason(init) {
        var i :| 0 <= i < |init| && SeasonNumber(init[i]) == Some(MaxSeason(init));
        assert SeasonNumber(episodes[i]) == Some(MaxSeason(episodes));
      }
    }
  }

  /** A season that no catalog entry parses to yields an empty list, and only then. */
  lemma {:induction false} SeasonEpisodesEmpty(episodes: seq<Episode>, season: Int32)
    ensures SeasonEpisodes(episodes, season) == [] <==>
      forall i :: 0 <= i < |episodes| ==> SeasonNumber(episodes[i]) != Some(season)
  {
    if episodes != [] {
      var init := episodes[..|episodes| - 1];
      SeasonEpisodesEmpty(init, season);
      assert forall i :: 0 <= i < |init| ==> init[i] == episodes[i];
    }
  }

  /** What `getEpisodeList(searchResult, season)` makes of the full catalog. */
  function SeasonSelection(episodes: seq<Episode>, seriesName: string, season: Int32): Result<seq<Episode>, LookupError>
  {
    var selected := SeasonEpisodes(episodes, season);
    if selected == [] then Failure(SeasonOutOfBounds(seriesName, season, MaxSeason(episodes)))
    else Success(selected)
  }

  /** The error is raised exactly when no episode belongs to the season, and carries MaxSeason. */
  lemma {:induction false} SeasonOutOfBoundsExactly(episodes: seq<Episode>, seriesName: string, season: Int32)
    ensures SeasonSelection(episodes, seriesName, season).Failure? <==>
      forall i :: 0 <= i < |episodes| ==> SeasonNumber(episodes[i]) != Some(season)
    ensures SeasonSelection(episodes, seriesName, season).Failure? ==>
      SeasonSelection(episodes, seriesName, season).error == SeasonOutOfBounds(seriesName, season, MaxSeason(episodes))
  {
    SeasonEpisodesEmpty(episodes, season);
  }

  /** Asking beyond the largest season fails and reports that largest season. */
  lemma {:induction false} SeasonBeyondMaximum(episodes: seq<Episode>, seriesName: string, season: Int32)
    requires season > MaxSeason(episodes)
    ensures SeasonSelection(episodes, seriesName, season) ==
      Failure(SeasonOutOfBounds(seriesName, season, MaxSeason(episodes)))
  {
    MaxSeasonIsMaximum(episodes);
    SeasonEpisodesEmpty(episodes, season);
  }

  /** Seasons 1 to 3 and a special: asking for season 5 reports season 3 as the largest. */
  lemma SeasonFiveOfThree(name: string)
    ensures var episodes := [
        Episode(name, "1", "1", "Pilot"), Episode(name, "2", "1", "Return"),
        Episode(name, "Special", "1", "Extra"), Episode(name, "3", "1", "Finale")];
      SeasonSelection(episodes, name, 5) == Failure(SeasonOutOfBounds(name, 5, 3))
  {
    var episodes := [
        Episode(name, "1", "1", "Pilot"), Episode(name, "2", "1", "Return"),
        Episode(name, "Special", "1", "Extra"), Episode(name, "3", "1", "Finale")];
    assert ParseInt("1") == Some(1) && ParseInt("2") == Some(2) && ParseInt("3") == Some(3);
    assert ParseInt("Special") == None;
    assert episodes[..1][..0] == [];
    assert MaxSeason(episodes[..1]) == 1;
    assert episodes[..2][..1] == episodes[..1];
    assert MaxSeason(episodes[..2]) == 2;
    assert episodes[..3][..2] == episodes[..2];
    assert MaxSeason(episodes[..3]) == 2;
    assert episodes[..3] == episodes[..|episodes| - 1];
    assert MaxSeason(episodes) == 3;
    SeasonBeyondMaximum(episodes, name, 5);
  }

  /** The loop of `getEpisodeList(searchResult, season)`: collect the season and track the maximum. */
  method FilterSeason(all: seq<Episode>, season: Int32) returns (episodes: seq<Episode>, maxSeason: Int32)
    ensures episodes == SeasonEpisodes(all, season)
    ensures maxSeason == MaxSeason(all)
  {
    episodes := [];
    maxSeason := 0;
    var i := 0;
    while i < |all|
      invariant 0 <= i <= |all|
      invariant episodes == SeasonEpisodes(all[..i], season)
      invariant maxSeason == MaxSeason(all[..i])
    {
      assert all[..i + 1][..i] == all[..i];
      var episode := all[i];
      var parsed := ParseInt(episode.seasonNumber);
      if parsed.Some? {
        var seasonNumber := parsed.value;
        if season == seasonNumber {
          episodes := episodes + [episode];
        }
        if seasonNumber > maxSeason {
          maxSeason := seasonNumber;
        }
      }
      i := i + 1;
    }
    assert all[..i] == all;
  }

  // ---------------------------------------------------------------------
  // Search
  // ---------------------------------------------------------------------

  function ToSearchResult(node: ShowNode): Option<SearchResult>
  {
    match ParseInt(node.showid)
    case Some(id) => Some(TVRageSearchResult(node.name, id, node.link))
    case None => None
  }

  // ---------------------------------------------------------------------
  // The client and its cache
  // ---------------------------------------------------------------------

  class TVRageClient {
    /** The shared "web" cache: request URL to episode list. */
    var cache: map<string, seq<Episode>>

    constructor (shared: map<string, seq<Episode>>)
      ensures cache == shared
    {
      cache := shared;
    }

    /**
     * `search(query)`: one result per `Results/show` node, in order; a show id
     * that is not a number aborts the search with that text.
     */
    method Search(response: Fetch<seq<ShowNode>>) returns (r: Result<seq<SearchResult>, LookupError>)
      ensures response.TransportFailed? ==> r == Failure(LookupFailed(response.message))
      ensures response.Fetched? ==>
        (r.Success? <==> forall i :: 0 <= i < |response.document| ==> ParseInt(response.document[i].showid).Some?)
      ensures response.Fetched? && r.Success? ==>
        |r.value| == |response.document| &&
        forall i :: 0 <= i < |response.document| ==> Some(r.value[i]) == ToSearchResult(response.document[i])
      ensures response.Fetched? && r.Failure? ==>
        exists i :: 0 <= i < |response.document| &&
          r.error == IllegalNumber(response.document[i].showid) &&
          ParseInt(response.document[i].showid).None? &&
          forall j :: 0 <= j < i ==> ParseInt(response.document[j].showid).Some?
    {
      if response.TransportFailed? {
        return Failure(LookupFailed(response.message));
      }
      var nodes := response.document;
      var results: seq<SearchResult> := [];
      var i := 0;
      while i < |nodes|
        invariant 0 <= i <= |nodes|
        invariant |results| == i
        invariant forall j :: 0 <= j < i ==> ParseInt(nodes[j].showid).Some? && Some(results[j]) == ToSearchResult(nodes[j])
      {
        var showid := ParseInt(nodes[i].showid);
        if showid.None? {
          return Failure(IllegalNumber(nodes[i].showid));
        }
        results := results + [TVRageSearchResult(nodes[i].name, showid.value, nodes[i].link)];
        i := i + 1;
      }
      r := Success(results);
    }

    /**
     * `getEpisodeList(searchResult)`: a cached list is returned as stored and
     * the fetcher's answer is ignored; otherwise the fetched document is
     * parsed and stored under the show's key, no other key changing.
     */
    method GetEpisodeList(searchResult: SearchResult, fetch: Fetch<EpisodeListDocument>)
      returns (r: Result<seq<Episode>, LookupError>)
      modifies this
      ensures var key := CacheKey(searchResult.showId);
        key in old(cache) ==> r == Success(old(cache)[key]) && cache == old(cache)
      ensures var key := CacheKey(searchResult.showId);
        key !in old(cache) && fetch.Fetched? ==>
          && r == Success(ParsedEpisodes(fetch.document.seriesName, fetch.document.episodes))
          && cache == old(cache)[key := r.value]
      ensures var key := CacheKey(searchResult.showId);
        key !in old(cache) && fetch.TransportFailed? ==>
          r == Failure(LookupFailed(fetch.message)) && cache == old(cache)
    {
      var key := CacheKey(searchResult.showId);
      if key in cache {
        return Success(cache[key]);
      }
      if fetch.TransportFailed? {
        return Failure(LookupFailed(fetch.message));
      }
      var episodes := ParseEpisodeList(fetch.document);
      cache := cache[key := episodes];
      r := Success(episodes);
    }

    /**
     * `getEpisodeList(searchResult, season)`: the full catalog (through the
     * cache), narrowed to one season; no matching episode is an error that
     * carries the largest season seen.
     */
    method GetSeasonEpisodeList(searchResult: SearchResult, season: Int32, fetch: Fetch<EpisodeListDocument>)
      returns (r: Result<seq<Episode>, LookupError>)
      modifies this
      ensures var key := CacheKey(searchResult.showId);
        key in old(cache) ==>
          cache == old(cache) && r == SeasonSelection(old(cache)[key], searchResult.name, season)
      ensures var key := CacheKey(searchResult.showId);
        key !in old(cache) && fetch.Fetched? ==>
          var all := ParsedEpisodes(fetch.document.seriesName, fetch.document.episodes);
          cache == old(cache)[key := all] && r == SeasonSelection(all, searchResult.name, season)
      ensures var key := CacheKey(searchResult.showId);
        key !in old(cache) && fetch.TransportFailed? ==>
          cache == old(cache) && r == Failure(LookupFailed(fetch.message))
    {
      var all := GetEpisodeList(searchResult, fetch);
      if all.Failure? {
        return Failure(all.error);
      }
      var episodes, maxSeason := FilterSeason(all.value, season);
      if episodes == [] {
        return Failure(SeasonOutOfBounds(searchResult.name, season, maxSeason));
      }
      r := Success(episodes);
    }

    /** A second request for the same show id is served from the cache, whatever the fetcher says. */
    method FetchTwice(first: SearchResult, second: SearchResult, fetch1: Fetch<EpisodeListDocument>, fetch2: Fetch<EpisodeListDocument>)
      returns (a: Result<seq<Episode>, LookupError>, b: Result<seq<Episode>, LookupError>)
      requires first.showId == second.showId
      modifies this
      ensures a.Success? ==> b == a && cache == old(cache)[CacheKey(first.showId) := a.value]
    {
      a := GetEpisodeList(first, fetch1);
      b := GetEpisodeList(second, fetch2);
    }
  }
}
