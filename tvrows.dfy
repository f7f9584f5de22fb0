/** Rows of the TV-show table and the functions that say how they are derived:
    classification of the items into series, seasons and episodes, the joins on
    series and season ids, the copying of series and season attributes down to
    an episode, and the order in which rows are emitted. */
module TVRows {
  import opened Text
  import opened Seqs
  import opened Emby
  import opened Summaries

  /** One row of the TV-show table. The last five fields are internal: they
      carry the join keys, the item type and the sort index. */
  datatype TVShowData = TVShowData(
    name: string,
    episode: string,
    season: string,
    productionYear: string,
    runtime: string,
    actors: string,
    studios: string,
    genres: string,
    container: string,
    codecs: string,
    resolution: string,
    path: string,
    seriesID: string,
    seasonID: string,
    episodeID: string,
    itemType: string,
    sortIndex: int32)

  /** The zero row every classified item starts from. */
  const EmptyRow := TVShowData("", "", "", "", "", "", "", "", "", "", "", "", "", "", "", "", 0)

  function SeriesRow(d: BaseItemDto): TVShowData
  {
    EmptyRow.(name := d.name, actors := PeopleSummary(d.people).0, genres := CommaList(d.genres),
              studios := StudiosSummary(d.studios), path := d.path, seriesID := d.id, itemType := d.itemType)
  }

  function SeasonRow(d: BaseItemDto): TVShowData
  {
    EmptyRow.(season := d.name, seriesID := d.seriesId, seasonID := d.id, sortIndex := d.indexNumber,
              path := d.path, itemType := d.itemType)
  }

  function EpisodeRow(d: BaseItemDto): TVShowData
  {
    EmptyRow.(episode := d.name, episodeID := d.id, runtime := EvalRuntime(d.runTimeTicks),
              container := d.container, codecs := CodecPair(d.mediaSources),
              resolution := EvalResolution(d.width, d.height), productionYear := IntToString(d.productionYear),
              actors := PeopleSummary(d.people).0, sortIndex := d.indexNumber, path := d.path,
              seriesID := d.seriesId, seasonID := d.seasonId, itemType := d.itemType)
  }

  /** The series, season and episode rows of a batch, each list in input order;
      items of any other type are ignored. */
  function Classify(dto: seq<BaseItemDto>): (seq<TVShowData>, seq<TVShowData>, seq<TVShowData>)
  {
    if dto == [] then ([], [], [])
    else
      var (series, seasons, episodes) := Classify(dto[..|dto| - 1]);
      var d := dto[|dto| - 1];
      if d.itemType == SeriesType then (series + [SeriesRow(d)], seasons, episodes)
      else if d.itemType == SeasonType then (series, seasons + [SeasonRow(d)], episodes)
      else if d.itemType == EpisodeType then (series, seasons, episodes + [EpisodeRow(d)])
      else (series, seasons, episodes)
  }

  function SeriesRows(dto: seq<BaseItemDto>): seq<TVShowData> { Classify(dto).0 }
  function SeasonRows(dto: seq<BaseItemDto>): seq<TVShowData> { Classify(dto).1 }
  function EpisodeRows(dto: seq<BaseItemDto>): seq<TVShowData> { Classify(dto).2 }

  /** The series rows are exactly the rows built from the series items. */
  lemma {:induction false} SeriesRowsMembers(dto: seq<BaseItemDto>, x: TVShowData)
    ensures x in SeriesRows(dto) <==> exists i :: 0 <= i < |dto| && dto[i].itemType == SeriesType && x == SeriesRow(dto[i])
  {
    if dto != [] {
      var init := dto[..|dto| - 1];
      SeriesRowsMembers(init, x);
      assert forall i :: 0 <= i < |init| ==> init[i] == dto[i];
    }
  }

  /** The season rows are exactly the rows built from the season items. */
  lemma {:induction false} SeasonRowsMembers(dto: seq<BaseItemDto>, x: TVShowData)
    ensures x in SeasonRows(dto) <==> exists i :: 0 <= i < |dto| && dto[i].itemType == SeasonType && x == SeasonRow(dto[i])
  {
    if dto != [] {
      var init := dto[..|dto| - 1];
      SeasonRowsMembers(init, x);
      assert forall i :: 0 <= i < |init| ==> init[i] == dto[i];
    }
  }

  /** The episode rows are exactly the rows built from the episode items. */
  lemma {:induction false} EpisodeRowsMembers(dto: seq<BaseItemDto>, x: TVShowData)
    ensures x in EpisodeRows(dto) <==> exists i :: 0 <= i < |dto| && dto[i].itemType == EpisodeType && x == EpisodeRow(dto[i])
  {
    if dto != [] {
      var init := dto[..|dto| - 1];
      EpisodeRowsMembers(init, x);
      assert forall i :: 0 <= i < |init| ==> init[i] == dto[i];
    }
  }

  // ---------------------------------------------------------------------------
  // Joins and inheritance
  // ---------------------------------------------------------------------------

  /** Selects the rows whose series id is `id`. */
  function OfSeries(id: string): TVShowData -> bool
  {
    (r: TVShowData) => r.seriesID == id
  }

  /** Selects the rows whose series id and season id are `seriesID` and `seasonID`. */
  function OfSeason(seriesID: string, seasonID: string): TVShowData -> bool
  {
    (r: TVShowData) => r.seriesID == seriesID && r.seasonID == seasonID
  }

  /** The seasons that join a series row. */
  function SeasonsOf(s: TVShowData, seasons: seq<TVShowData>): seq<TVShowData>
  {
    Filter(seasons, OfSeries(s.seriesID))
  }

  /** The episodes that join a season row. */
  function EpisodesOf(n: TVShowData, episodes: seq<TVShowData>): seq<TVShowData>
  {
    Filter(episodes, OfSeason(n.seriesID, n.seasonID))
  }

  /** An episode row as emitted under series `s` and season `n`: the series
      name, the season name, the series genres and studios, and the series
      actors when the episode has none of its own. */
  function Inherit(e: TVShowData, s: TVShowData, n: TVShowData): (r: TVShowData)
  {
    e.(name := s.name, season := n.season, genres := s.genres, studios := s.studios,
       actors := if e.actors == "" then s.actors else e.actors)
  }

  // ---------------------------------------------------------------------------
  // Emission order
  // ---------------------------------------------------------------------------

  /** The episodes `es` of season `n` of series `s`, as emitted. */
  function Inherited(s: TVShowData, n: TVShowData, es: seq<TVShowData>): (r: seq<TVShowData>)
    ensures |r| == |es|
  {
    if es == [] then [] else Inherited(s, n, es[..|es| - 1]) + [Inherit(es[|es| - 1], s, n)]
  }

  /** The rows that follow series row `s`: season by season, its episodes. */
  function SeasonsBlock(s: TVShowData, ns: seq<TVShowData>, ess: seq<seq<TVShowData>>): seq<TVShowData>
    requires |ess| == |ns|
  {
    if ns == [] then []
    else SeasonsBlock(s, ns[..|ns| - 1], ess[..|ess| - 1]) + Inherited(s, ns[|ns| - 1], ess[|ess| - 1])
  }

  /** `nss` and `esss` give seasons for each series and episodes for each season. */
  predicate Shaped(ss: seq<TVShowData>, nss: seq<seq<TVShowData>>, esss: seq<seq<seq<TVShowData>>>)
  {
    |nss| == |ss| && |esss| == |ss| && forall k :: 0 <= k < |ss| ==> |esss[k]| == |nss[k]|
  }

  /** The table: each series row followed by the episodes of its seasons. */
  function Layout(ss: seq<TVShowData>, nss: seq<seq<TVShowData>>, esss: seq<seq<seq<TVShowData>>>): seq<TVShowData>
    requires Shaped(ss, nss, esss)
  {
    if ss == [] then []
    else
      var k := |ss| - 1;
      Layout(ss[..k], nss[..k], esss[..k]) + [ss[k]] + SeasonsBlock(ss[k], nss[k], esss[k])
  }

  /** The table over one more series: the old table, the series row, its block. */
  lemma LayoutPrefix(series: seq<TVShowData>, i: nat, nss: seq<seq<TVShowData>>, esss: seq<seq<seq<TVShowData>>>,
                     ns: seq<TVShowData>, ess: seq<seq<TVShowData>>)
    requires i < |series| && Shaped(series[..i], nss, esss) && |ess| == |ns|
    ensures Shaped(series[..i + 1], nss + [ns], esss + [ess])
    ensures Layout(series[..i + 1], nss + [ns], esss + [ess]) ==
            Layout(series[..i], nss, esss) + [series[i]] + SeasonsBlock(series[i], ns, ess)
  {
    assert series[..i + 1][..i] == series[..i];
    assert (nss + [ns])[..i] == nss;
    assert (esss + [ess])[..i] == esss;
  }

  /** The table over a non-empty list of series: the table over all but the
      last, the last series row, its block. */
  lemma LayoutLast(ss: seq<TVShowData>, nss: seq<seq<TVShowData>>, esss: seq<seq<seq<TVShowData>>>)
    requires Shaped(ss, nss, esss) && ss != []
    ensures Shaped(ss[..|ss| - 1], nss[..|ss| - 1], esss[..|ss| - 1])
    ensures Layout(ss, nss, esss) ==
            Layout(ss[..|ss| - 1], nss[..|ss| - 1], esss[..|ss| - 1]) + [ss[|ss| - 1]] +
            SeasonsBlock(ss[|ss| - 1], nss[|ss| - 1], esss[|ss| - 1])
  {
  }

  /** The block over one more season: the old block, then that season's episodes. */
  lemma SeasonsBlockPrefix(s: TVShowData, ns: seq<TVShowData>, j: nat, ess: seq<seq<TVShowData>>, es: seq<TVShowData>)
    requires j < |ns| && |ess| == j
    ensures SeasonsBlock(s, ns[..j + 1], ess + [es]) == SeasonsBlock(s, ns[..j], ess) + Inherited(s, ns[j], es)
  {
    assert ns[..j + 1][..j] == ns[..j];
    assert (ess + [es])[..j] == ess;
  }

  lemma InheritedPrefix(s: TVShowData, n: TVShowData, es: seq<TVShowData>, l: nat)
    requires l < |es|
    ensures Inherited(s, n, es[..l + 1]) == Inherited(s, n, es[..l]) + [Inherit(es[l], s, n)]
  {
    assert es[..l + 1][..l] == es[..l];
  }

  /** A property of every series row and of every episode row as emitted holds
      of every row of the table. */
  lemma {:induction false} LayoutAll(ss: seq<TVShowData>, nss: seq<seq<TVShowData>>, esss: seq<seq<seq<TVShowData>>>,
                                     P: TVShowData -> bool)
    requires Shaped(ss, nss, esss)
    requires forall k :: 0 <= k < |ss| ==> P(ss[k])
    requires forall k, j, e :: 0 <= k < |ss| && 0 <= j < |nss[k]| && e in esss[k][j] ==> P(Inherit(e, ss[k], nss[k][j]))
    ensures forall r :: r in Layout(ss, nss, esss) ==> P(r)
  {
    if ss != [] {
      var k := |ss| - 1;
      LayoutAll(ss[..k], nss[..k], esss[..k], P);
      SeasonsBlockAll(ss[k], nss[k], esss[k], P);
    }
  }

  lemma {:induction false} SeasonsBlockAll(s: TVShowData, ns: seq<TVShowData>, ess: seq<seq<TVShowData>>, P: TVShowData -> bool)
    requires |ess| == |ns|
    requires forall j, e :: 0 <= j < |ns| && e in ess[j] ==> P(Inherit(e, s, ns[j]))
    ensures forall r :: r in SeasonsBlock(s, ns, ess) ==> P(r)
  {
    if ns != [] {
      var j := |ns| - 1;
      SeasonsBlockAll(s, ns[..j], ess[..j], P);
      InheritedAll(s, ns[j], ess[j], P);
    }
  }

  lemma {:induction false} InheritedAll(s: TVShowData, n: TVShowData, es: seq<TVShowData>, P: TVShowData -> bool)
    requires forall e :: e in es ==> P(Inherit(e, s, n))
    ensures forall r :: r in Inherited(s, n, es) ==> P(r)
  {
    if es != [] {
      InheritedAll(s, n, es[..|es| - 1], P);
    }
  }

  /** Every episode of every season of every series appears in the table, as emitted. */
  lemma {:induction false} LayoutContains(ss: seq<TVShowData>, nss: seq<seq<TVShowData>>, esss: seq<seq<seq<TVShowData>>>,
                                          k: nat, j: nat, e: TVShowData)
    requires Shaped(ss, nss, esss)
    requires k < |ss| && j < |nss[k]| && e in esss[k][j]
    ensures Inherit(e, ss[k], nss[k][j]) in Layout(ss, nss, esss)
  {
    var last := |ss| - 1;
    if k < last {
      LayoutContains(ss[..last], nss[..last], esss[..last], k, j, e);
    } else {
      SeasonsBlockContains(ss[k], nss[k], esss[k], j, e);
    }
  }

  lemma {:induction false} SeasonsBlockContains(s: TVShowData, ns: seq<TVShowData>, ess: seq<seq<TVShowData>>, j: nat, e: TVShowData)
    requires |ess| == |ns| && j < |ns| && e in ess[j]
    ensures Inherit(e, s, ns[j]) in SeasonsBlock(s, ns, ess)
  {
    var last := |ns| - 1;
    if j < last {
      SeasonsBlockContains(s, ns[..last], ess[..last], j, e);
    } else {
      InheritedContains(s, ns[j], ess[j], e);
    }
  }

  lemma {:induction false} InheritedContains(s: TVShowData, n: TVShowData, es: seq<TVShowData>, e: TVShowData)
    requires e in es
    ensures Inherit(e, s, n) in Inherited(s, n, es)
  {
    var last := |es| - 1;
    if es[last] != e {
      assert e in es[..last];
      InheritedContains(s, n, es[..last], e);
    }
  }
}
