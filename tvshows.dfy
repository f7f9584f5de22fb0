/** GetTVShowDisplayData: rebuilds the series / season / episode tree from a flat
    batch of items and emits it as one table, each series row followed by the
    episodes of its seasons, with the series and season attributes copied down
    to every episode. */
module TVShows {
  import opened Text
  import opened Seqs
  import opened Emby
  import opened Summaries
  import opened TVRows
  import opened Sorting

  /** The partition pass: one row per series, season and episode item, each
      kind in its own list, in input order. */
  method ClassifyItems(dto: seq<BaseItemDto>) returns (series: seq<TVShowData>, seasons: seq<TVShowData>, episodes: seq<TVShowData>)
    ensures series == SeriesRows(dto) && seasons == SeasonRows(dto) && episodes == EpisodeRows(dto)
  {
    series, seasons, episodes := [], [], [];
    var i := 0;
    while i < |dto|
      invariant 0 <= i <= |dto|
      invariant (series, seasons, episodes) == Classify(dto[..i])
    {
      var d := dto[i];
      assert dto[..i + 1][..i] == dto[..i];
      var item := EmptyRow;
      if d.itemType == SeriesType {
        var actors, directors := EvalPeople(d.people);
        var genres := EvalGenres(d.genres);
        var studios := EvalStudios(d.studios);
        item := item.(name := d.name, actors := actors, genres := genres, studios := studios,
                      path := d.path, seriesID := d.id, itemType := d.itemType);
        assert item == SeriesRow(d);
        series := series + [item];
      } else if d.itemType == SeasonType {
        item := item.(season := d.name, seriesID := d.seriesId, seasonID := d.id, sortIndex := d.indexNumber,
                      path := d.path, itemType := d.itemType);
        seasons := seasons + [item];
      } else if d.itemType == EpisodeType {
        var codecs := EvalCodecs(d.mediaSources);
        var actors, directors := EvalPeople(d.people);
        item := item.(episode := d.name, episodeID := d.id, runtime := EvalRuntime(d.runTimeTicks),
                      container := d.container, codecs := codecs, resolution := EvalResolution(d.width, d.height),
                      productionYear := IntToString(d.productionYear), actors := actors, sortIndex := d.indexNumber,
                      path := d.path, seriesID := d.seriesId, seasonID := d.seasonId, itemType := d.itemType);
        assert item == EpisodeRow(d);
        episodes := episodes + [item];
      }
      i := i + 1;
    }
    assert dto[..i] == dto;
  }

  /** The seasons of series `s`, in the order of `seasons`. */
  method SeasonsForSeries(s: TVShowData, seasons: seq<TVShowData>) returns (r: seq<TVShowData>)
    ensures r == SeasonsOf(s, seasons)
  {
    r := [];
    for i := 0 to |seasons|
      invariant r == Filter(seasons[..i], OfSeries(s.seriesID))
    {
      FilterAppend(seasons[..i], seasons[i], OfSeries(s.seriesID));
      assert seasons[..i + 1] == seasons[..i] + [seasons[i]];
      if seasons[i].seriesID == s.seriesID {
        r := r + [seasons[i]];
      }
    }
    assert seasons[..|seasons|] == seasons;
  }

  /** The episodes of season `n`, in the order of `episodes`. */
  method EpisodesForSeason(n: TVShowData, episodes: seq<TVShowData>) returns (r: seq<TVShowData>)
    ensures r == EpisodesOf(n, episodes)
  {
    r := [];
    for i := 0 to |episodes|
      invariant r == Filter(episodes[..i], OfSeason(n.seriesID, n.seasonID))
    {
      FilterAppend(episodes[..i], episodes[i], OfSeason(n.seriesID, n.seasonID));
      assert episodes[..i + 1] == episodes[..i] + [episodes[i]];
      if episodes[i].seriesID == n.seriesID && episodes[i].seasonID == n.seasonID {
        r := r + [episodes[i]];
      }
    }
    assert episodes[..|episodes|] == episodes;
  }

  /** What the TV table is, given the order the sorts chose: the series rows of
      the batch sorted by name; for each, its seasons sorted by index; for each
      season, its episodes sorted by index; and the result lays them out. Rows
      with equal keys may come in any order. */
  ghost predicate TVLayout(dto: seq<BaseItemDto>, result: seq<TVShowData>,
                           ss: seq<TVShowData>, nss: seq<seq<TVShowData>>, esss: seq<seq<seq<TVShowData>>>)
  {
    && SortedPermutation(ss, SeriesRows(dto), ByName)
    && SeriesOrders(ss, nss, esss, SeasonRows(dto), EpisodeRows(dto))
    && result == Layout(ss, nss, esss)
  }

  /** For each series in `ss`, `nss` holds its seasons and `esss` their episodes, sorted by index. */
  ghost predicate SeriesOrders(ss: seq<TVShowData>, nss: seq<seq<TVShowData>>, esss: seq<seq<seq<TVShowData>>>,
                               allSeasons: seq<TVShowData>, allEpisodes: seq<TVShowData>)
  {
    && Shaped(ss, nss, esss)
    && forall k :: 0 <= k < |ss| ==>
         SortedPermutation(nss[k], SeasonsOf(ss[k], allSeasons), ByIndex) &&
         EpisodeOrders(nss[k], esss[k], allEpisodes)
  }

  /** The rows emitted for season `n` of series `s`: its episodes, sorted by
      index, each with the series and season attributes copied in. `episodes`
      holds the episode rows in some order; `es` is the order the sort chose. */
  method EmitSeason(s: TVShowData, n: TVShowData, episodes: seq<TVShowData>, ghost allEpisodes: seq<TVShowData>)
    returns (rows: seq<TVShowData>, ghost es: seq<TVShowData>)
    requires multiset(episodes) == multiset(allEpisodes)
    ensures SortedPermutation(es, EpisodesOf(n, allEpisodes), ByIndex)
    ensures rows == Inherited(s, n, es)
  {
    // the season's copy gets the series name, but is never emitted
    var season := n.(name := s.name);
    var episodesTmp := EpisodesForSeason(season, episodes);
    episodesTmp := SortedCopy(episodesTmp, ByIndex);
    FilterPermutation(episodes, allEpisodes, OfSeason(n.seriesID, n.seasonID));
    rows := [];
    for l := 0 to |episodesTmp|
      invariant rows == Inherited(s, n, episodesTmp[..l])
    {
      var e := episodesTmp[l];
      e := e.(name := s.name, season := season.season, genres := s.genres, studios := s.studios);
      if e.actors == "" {
        e := e.(actors := s.actors);
      }
      assert e == Inherit(episodesTmp[l], s, n);
      InheritedPrefix(s, n, episodesTmp, l);
      rows := rows + [e];
    }
    assert episodesTmp[..|episodesTmp|] == episodesTmp;
    es := episodesTmp;
  }

  /** The rows emitted for series `s`: the series row, then season by season
      (sorted by index) the season's episodes. `ns` and `ess` are the orders
      the sorts chose. */
  method EmitSeries(s: TVShowData, seasons: seq<TVShowData>, episodes: seq<TVShowData>,
                    ghost allSeasons: seq<TVShowData>, ghost allEpisodes: seq<TVShowData>)
    returns (rows: seq<TVShowData>, ghost ns: seq<TVShowData>, ghost ess: seq<seq<TVShowData>>)
    requires multiset(seasons) == multiset(allSeasons)
    requires multiset(episodes) == multiset(allEpisodes)
    ensures SortedPermutation(ns, SeasonsOf(s, allSeasons), ByIndex)
    ensures EpisodeOrders(ns, ess, allEpisodes)
    ensures rows == [s] + SeasonsBlock(s, ns, ess)
  {
    var seasonsTmp := SeasonsForSeries(s, seasons);
    seasonsTmp := SortedCopy(seasonsTmp, ByIndex);
    FilterPermutation(seasons, allSeasons, OfSeries(s.seriesID));
    var block;
    block, ess := EmitSeasons(s, seasonsTmp, episodes, allEpisodes);
    rows := [s] + block;
    ns := seasonsTmp;
  }

  /** For each season in `ns`, `ess` holds its episodes sorted by index. */
  ghost predicate EpisodeOrders(ns: seq<TVShowData>, ess: seq<seq<TVShowData>>, allEpisodes: seq<TVShowData>)
  {
    |ess| == |ns| &&
    forall j :: 0 <= j < |ns| ==> SortedPermutation(ess[j], EpisodesOf(ns[j], allEpisodes), ByIndex)
  }

  /** The episode rows of the seasons `ns` of series `s`, season by season. */
  method EmitSeasons(s: TVShowData, ns: seq<TVShowData>, episodes: seq<TVShowData>, ghost allEpisodes: seq<TVShowData>)
    returns (rows: seq<TVShowData>, ghost ess: seq<seq<TVShowData>>)
    requires multiset(episodes) == multiset(allEpisodes)
    ensures EpisodeOrders(ns, ess, allEpisodes)
    ensures rows == SeasonsBlock(s, ns, ess)
  {
    rows := [];
    ess := [];
    for j := 0 to |ns|
      invariant EpisodeOrders(ns[..j], ess, allEpisodes)
      invariant rows == SeasonsBlock(s, ns[..j], ess)
    {
      var episodeRows, es := EmitSeason(s, ns[j], episodes, allEpisodes);
      SeasonsBlockPrefix(s, ns, j, ess, es);
      EpisodeOrdersPrefix(ns, j, ess, es, allEpisodes);
      rows := rows + episodeRows;
      ess := ess + [es];
    }
    assert ns[..|ns|] == ns;
  }

  lemma EpisodeOrdersPrefix(ns: seq<TVShowData>, j: nat, ess: seq<seq<TVShowData>>, es: seq<TVShowData>,
                            allEpisodes: seq<TVShowData>)
    requires j < |ns| && EpisodeOrders(ns[..j], ess, allEpisodes)
    requires SortedPermutation(es, EpisodesOf(ns[j], allEpisodes), ByIndex)
    ensures EpisodeOrders(ns[..j + 1], ess + [es], allEpisodes)
  {
  }

  /** The TV table; the ghost results are the series order, and per series the
      season order and per season the episode order, that the sorts chose. */
  method GetTVShowDisplayData(dto: seq<BaseItemDto>)
    returns (result: seq<TVShowData>, ghost ss: seq<TVShowData>, ghost nss: seq<seq<TVShowData>>,
             ghost esss: seq<seq<seq<TVShowData>>>)
    ensures TVLayout(dto, result, ss, nss, esss)
  {
    var series, seasons, episodes := ClassifyItems(dto);
    series := SortedCopy(series, ByName);
    seasons := SortedCopy(seasons, BySeriesId);
    episodes := SortedCopy(episodes, BySeriesId);
    result, nss, esss := EmitAll(series, seasons, episodes, SeasonRows(dto), EpisodeRows(dto));
    ss := series;
  }

  /** The join-and-emit pass over the sorted series. */
  method EmitAll(series: seq<TVShowData>, seasons: seq<TVShowData>, episodes: seq<TVShowData>,
                 ghost allSeasons: seq<TVShowData>, ghost allEpisodes: seq<TVShowData>)
    returns (result: seq<TVShowData>, ghost nss: seq<seq<TVShowData>>, ghost esss: seq<seq<seq<TVShowData>>>)
    requires multiset(seasons) == multiset(allSeasons)
    requires multiset(episodes) == multiset(allEpisodes)
    ensures SeriesOrders(series, nss, esss, allSeasons, allEpisodes)
    ensures result == Layout(series, nss, esss)
  {
    result := [];
    nss, esss := [], [];
    for i := 0 to |series|
      invariant SeriesOrders(series[..i], nss, esss, allSeasons, allEpisodes)
      invariant result == Layout(series[..i], nss, esss)
    {
      var rows, ns, ess := EmitSeries(series[i], seasons, episodes, allSeasons, allEpisodes);
      LayoutPrefix(series, i, nss, esss, ns, ess);
      SeriesOrdersPrefix(series, i, nss, esss, ns, ess, allSeasons, allEpisodes);
      result := result + rows;
      nss, esss := nss + [ns], esss + [ess];
    }
    assert series[..|series|] == series;
  }

  lemma SeriesOrdersPrefix(series: seq<TVShowData>, i: nat, nss: seq<seq<TVShowData>>, esss: seq<seq<seq<TVShowData>>>,
                           ns: seq<TVShowData>, ess: seq<seq<TVShowData>>,
                           allSeasons: seq<TVShowData>, allEpisodes: seq<TVShowData>)
    requires i < |series| && SeriesOrders(series[..i], nss, esss, allSeasons, allEpisodes)
    requires SortedPermutation(ns, SeasonsOf(series[i], allSeasons), ByIndex)
    requires EpisodeOrders(ns, ess, allEpisodes)
    ensures SeriesOrders(series[..i + 1], nss + [ns], esss + [ess], allSeasons, allEpisodes)
  {
  }
}
