/** What the TV table promises, stated in terms of the items of the batch:
    it holds series rows and episode rows only; the series rows come sorted
    by name; an episode row is shown exactly when its item joins a series and
    a season of the batch; and a shown episode carries the series name, the
    season name, the series genres and studios, and its own actors or, when
    it has none, the series actors. */
module TVProperties {
  import opened Text
  import opened Seqs
  import opened Emby
  import opened Summaries
  import opened TVRows
  import opened Sorting
  import opened TVShows

  predicate IsSeriesRow(r: TVShowData)
  {
    r.itemType == SeriesType
  }

  /** Episode item `ed` belongs to season item `nd` of series item `sd`. */
  predicate EpisodeUnder(sd: BaseItemDto, nd: BaseItemDto, ed: BaseItemDto)
  {
    && sd.itemType == SeriesType && nd.itemType == SeasonType && ed.itemType == EpisodeType
    && nd.seriesId == sd.id
    && ed.seriesId == sd.id && ed.seasonId == nd.id
  }

  /** The visible columns of row `r` are those of episode `ed` shown under
      season `nd` of series `sd`. */
  predicate EpisodeShownAs(r: TVShowData, sd: BaseItemDto, nd: BaseItemDto, ed: BaseItemDto)
  {
    var own := PeopleSummary(ed.people).0;
    && r.name == sd.name
    && r.season == nd.name
    && r.episode == ed.name
    && r.genres == CommaList(sd.genres)
    && r.studios == StudiosSummary(sd.studios)
    && r.actors == (if own == "" then PeopleSummary(sd.people).0 else own)
    && r.productionYear == IntToString(ed.productionYear)
    && r.runtime == EvalRuntime(ed.runTimeTicks)
    && r.container == ed.container
    && r.codecs == CodecPair(ed.mediaSources)
    && r.resolution == EvalResolution(ed.width, ed.height)
    && r.path == ed.path
  }

  /** Row `r` shows some episode item of the batch under its season and series. */
  ghost predicate ShownEpisode(dto: seq<BaseItemDto>, r: TVShowData)
  {
    exists i, j, l :: 0 <= i < |dto| && 0 <= j < |dto| && 0 <= l < |dto| &&
      EpisodeUnder(dto[i], dto[j], dto[l]) && EpisodeShownAs(r, dto[i], dto[j], dto[l])
  }

  /** Each row kind carries its item type. */
  lemma ClassifiedTypes(dto: seq<BaseItemDto>)
    ensures forall x :: x in SeriesRows(dto) ==> x.itemType == SeriesType
    ensures forall x :: x in SeasonRows(dto) ==> x.itemType == SeasonType
    ensures forall x :: x in EpisodeRows(dto) ==> x.itemType == EpisodeType
  {
    forall x ensures x in SeriesRows(dto) ==> x.itemType == SeriesType {
      SeriesRowsMembers(dto, x);
    }
    forall x ensures x in SeasonRows(dto) ==> x.itemType == SeasonType {
      SeasonRowsMembers(dto, x);
    }
    forall x ensures x in EpisodeRows(dto) ==> x.itemType == EpisodeType {
      EpisodeRowsMembers(dto, x);
    }
  }

  /** The joins behind an emitted episode: its series row, season row and
      episode row all come from the batch, and their ids match. */
  lemma JoinFacts(dto: seq<BaseItemDto>, result: seq<TVShowData>, ss: seq<TVShowData>,
                  nss: seq<seq<TVShowData>>, esss: seq<seq<seq<TVShowData>>>, k: nat, j: nat, e: TVShowData)
    requires TVLayout(dto, result, ss, nss, esss)
    requires k < |ss| && j < |nss[k]| && e in esss[k][j]
    ensures ss[k] in SeriesRows(dto)
    ensures nss[k][j] in SeasonRows(dto) && nss[k][j].seriesID == ss[k].seriesID
    ensures e in EpisodeRows(dto) && e.seriesID == nss[k][j].seriesID && e.seasonID == nss[k][j].seasonID
  {
    var n := nss[k][j];
    assert ss[k] in multiset(ss);
    assert SortedPermutation(nss[k], SeasonsOf(ss[k], SeasonRows(dto)), ByIndex);
    assert n in multiset(nss[k]);
    FilterMember(SeasonRows(dto), OfSeries(ss[k].seriesID), n);
    assert EpisodeOrders(nss[k], esss[k], EpisodeRows(dto));
    assert SortedPermutation(esss[k][j], EpisodesOf(n, EpisodeRows(dto)), ByIndex);
    assert e in multiset(esss[k][j]);
    FilterMember(EpisodeRows(dto), OfSeason(n.seriesID, n.seasonID), e);
  }

  /** The TV table holds no season row: only series rows and episode rows. */
  lemma TVNoSeasonRows(dto: seq<BaseItemDto>, result: seq<TVShowData>, ss: seq<TVShowData>,
                       nss: seq<seq<TVShowData>>, esss: seq<seq<seq<TVShowData>>>)
    requires TVLayout(dto, result, ss, nss, esss)
    ensures forall r :: r in result ==> r.itemType == SeriesType || r.itemType == EpisodeType
  {
    var P := (r: TVShowData) => r.itemType == SeriesType || r.itemType == EpisodeType;
    ClassifiedTypes(dto);
    forall k | 0 <= k < |ss|
      ensures P(ss[k])
    {
      assert ss[k] in multiset(ss);
    }
    forall k, j, e | 0 <= k < |ss| && 0 <= j < |nss[k]| && e in esss[k][j]
      ensures P(Inherit(e, ss[k], nss[k][j]))
    {
      JoinFacts(dto, result, ss, nss, esss, k, j, e);
    }
    LayoutAll(ss, nss, esss, P);
  }

  /** The series rows of the table, in table order, are the series of the
      batch sorted by name. */
  lemma TVSeriesRowsByName(dto: seq<BaseItemDto>, result: seq<TVShowData>, ss: seq<TVShowData>,
                           nss: seq<seq<TVShowData>>, esss: seq<seq<seq<TVShowData>>>)
    requires TVLayout(dto, result, ss, nss, esss)
    ensures Filter(result, IsSeriesRow) == ss
    ensures SortedPermutation(Filter(result, IsSeriesRow), SeriesRows(dto), ByName)
  {
    ClassifiedTypes(dto);
    forall k | 0 <= k < |ss|
      ensures IsSeriesRow(ss[k])
    {
      assert ss[k] in multiset(ss);
    }
    forall k | 0 <= k < |ss|
      ensures Filter(SeasonsBlock(ss[k], nss[k], esss[k]), IsSeriesRow) == []
    {
      forall j, e | 0 <= j < |nss[k]| && e in esss[k][j]
        ensures e.itemType == EpisodeType
      {
        JoinFacts(dto, result, ss, nss, esss, k, j, e);
      }
      BlockWithoutSeries(ss[k], nss[k], esss[k]);
    }
    LayoutSeriesRows(ss, nss, esss);
  }

  /** Selecting the series rows of the table gives the series back, when the
      block after each series holds none. */
  lemma {:induction false} LayoutSeriesRows(ss: seq<TVShowData>, nss: seq<seq<TVShowData>>, esss: seq<seq<seq<TVShowData>>>)
    requires Shaped(ss, nss, esss)
    requires forall k :: 0 <= k < |ss| ==> IsSeriesRow(ss[k])
    requires forall k {:trigger SeasonsBlock(ss[k], nss[k], esss[k])} ::
               0 <= k < |ss| ==> Filter(SeasonsBlock(ss[k], nss[k], esss[k]), IsSeriesRow) == []
    ensures Filter(Layout(ss, nss, esss), IsSeriesRow) == ss
  {
    if ss != [] {
      var k := |ss| - 1;
      var prefix := Layout(ss[..k], nss[..k], esss[..k]);
      var block := SeasonsBlock(ss[k], nss[k], esss[k]);
      var ss', nss', esss' := ss[..k], nss[..k], esss[..k];
      LayoutLast(ss, nss, esss);
      forall i | 0 <= i < |ss'|
        ensures IsSeriesRow(ss'[i]) && Filter(SeasonsBlock(ss'[i], nss'[i], esss'[i]), IsSeriesRow) == []
      {
        assert ss'[i] == ss[i] && nss'[i] == nss[i] && esss'[i] == esss[i];
      }
      LayoutSeriesRows(ss', nss', esss');
      SeriesRowsStep(prefix, ss[k], block, ss');
      SnocLast(ss);
    }
  }

  /** One series row and a block without series rows add that row alone. */
  lemma SeriesRowsStep(prefix: seq<TVShowData>, s: TVShowData, block: seq<TVShowData>, head: seq<TVShowData>)
    requires Filter(prefix, IsSeriesRow) == head
    requires IsSeriesRow(s) && Filter(block, IsSeriesRow) == []
    ensures Filter(prefix + [s] + block, IsSeriesRow) == head + [s]
  {
    FilterConcat(prefix + [s], block, IsSeriesRow);
    FilterAppend(prefix, s, IsSeriesRow);
  }

  /** The episode block of a series holds no series row. */
  lemma BlockWithoutSeries(s: TVShowData, ns: seq<TVShowData>, ess: seq<seq<TVShowData>>)
    requires |ess| == |ns|
    requires forall j, e :: 0 <= j < |ns| && e in ess[j] ==> e.itemType == EpisodeType
    ensures Filter(SeasonsBlock(s, ns, ess), IsSeriesRow) == []
  {
    var P := (r: TVShowData) => !IsSeriesRow(r);
    SeasonsBlockAll(s, ns, ess, P);
    FilterNone(SeasonsBlock(s, ns, ess), IsSeriesRow);
  }

  /** An episode row of the table shows an episode item of the batch that
      belongs to a season item and a series item of the batch: orphans are
      dropped, and the shown columns are the inherited ones. */
  lemma TVEpisodeRowsJoined(dto: seq<BaseItemDto>, result: seq<TVShowData>, ss: seq<TVShowData>,
                            nss: seq<seq<TVShowData>>, esss: seq<seq<seq<TVShowData>>>)
    requires TVLayout(dto, result, ss, nss, esss)
    ensures forall r :: r in result && r.itemType == EpisodeType ==> ShownEpisode(dto, r)
  {
    var P := (r: TVShowData) => r.itemType == EpisodeType ==> ShownEpisode(dto, r);
    ClassifiedTypes(dto);
    forall k | 0 <= k < |ss|
      ensures P(ss[k])
    {
      assert ss[k] in multiset(ss);
    }
    forall k, j, e | 0 <= k < |ss| && 0 <= j < |nss[k]| && e in esss[k][j]
      ensures P(Inherit(e, ss[k], nss[k][j]))
    {
      ShownAt(dto, result, ss, nss, esss, k, j, e);
    }
    LayoutAll(ss, nss, esss, P);
  }

  lemma ShownAt(dto: seq<BaseItemDto>, result: seq<TVShowData>, ss: seq<TVShowData>,
                nss: seq<seq<TVShowData>>, esss: seq<seq<seq<TVShowData>>>, k: nat, j: nat, e: TVShowData)
    requires TVLayout(dto, result, ss, nss, esss)
    requires k < |ss| && j < |nss[k]| && e in esss[k][j]
    ensures ShownEpisode(dto, Inherit(e, ss[k], nss[k][j]))
  {
    JoinFacts(dto, result, ss, nss, esss, k, j, e);
    SeriesRowsMembers(dto, ss[k]);
    SeasonRowsMembers(dto, nss[k][j]);
    EpisodeRowsMembers(dto, e);
    var si :| 0 <= si < |dto| && dto[si].itemType == SeriesType && ss[k] == SeriesRow(dto[si]);
    var ni :| 0 <= ni < |dto| && dto[ni].itemType == SeasonType && nss[k][j] == SeasonRow(dto[ni]);
    var ei :| 0 <= ei < |dto| && dto[ei].itemType == EpisodeType && e == EpisodeRow(dto[ei]);
    InheritShows(dto[si], dto[ni], dto[ei]);
    assert EpisodeUnder(dto[si], dto[ni], dto[ei]);
  }

  /** The inherited row of an episode shows it under its season and series. */
  lemma InheritShows(sd: BaseItemDto, nd: BaseItemDto, ed: BaseItemDto)
    ensures EpisodeShownAs(Inherit(EpisodeRow(ed), SeriesRow(sd), SeasonRow(nd)), sd, nd, ed)
  {
  }

  /** Every episode item that belongs to a season item and a series item of the
      batch is shown in the table. */
  lemma TVEpisodesComplete(dto: seq<BaseItemDto>, result: seq<TVShowData>, ss: seq<TVShowData>,
                           nss: seq<seq<TVShowData>>, esss: seq<seq<seq<TVShowData>>>, i: nat, j: nat, l: nat)
    requires TVLayout(dto, result, ss, nss, esss)
    requires i < |dto| && j < |dto| && l < |dto| && EpisodeUnder(dto[i], dto[j], dto[l])
    ensures Inherit(EpisodeRow(dto[l]), SeriesRow(dto[i]), SeasonRow(dto[j])) in result
    ensures exists r :: r in result && EpisodeShownAs(r, dto[i], dto[j], dto[l])
  {
    var s, n, e := SeriesRow(dto[i]), SeasonRow(dto[j]), EpisodeRow(dto[l]);
    SeriesRowsMembers(dto, s);
    SeasonRowsMembers(dto, n);
    EpisodeRowsMembers(dto, e);
    assert s in multiset(ss);
    var k :| 0 <= k < |ss| && ss[k] == s;
    assert SortedPermutation(nss[k], SeasonsOf(s, SeasonRows(dto)), ByIndex);
    FilterMember(SeasonRows(dto), OfSeries(s.seriesID), n);
    assert n in multiset(nss[k]);
    var jj :| 0 <= jj < |nss[k]| && nss[k][jj] == n;
    assert EpisodeOrders(nss[k], esss[k], EpisodeRows(dto));
    assert SortedPermutation(esss[k][jj], EpisodesOf(n, EpisodeRows(dto)), ByIndex);
    FilterMember(EpisodeRows(dto), OfSeason(n.seriesID, n.seasonID), e);
    assert e in multiset(esss[k][jj]);
    LayoutContains(ss, nss, esss, k, jj, e);
    InheritShows(dto[i], dto[j], dto[l]);
  }
}
