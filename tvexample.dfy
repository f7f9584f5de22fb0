/** A worked batch: one series, two seasons delivered out of index order, three
    episodes and one season whose series is missing, the items arriving in a
    scrambled order. Whatever order the sorts choose, the table is the series
    row followed by the two episodes of the season with index 1, in index
    order, and then the episode of the season with index 2; nothing of the
    orphan season appears. Only the fields the rebuild joins and sorts on are
    fixed; names, people, genres and the rest are arbitrary. */
module TVExample {
  import opened Emby
  import opened TVRows
  import opened Sorting
  import opened TVShows
  import opened Seqs

  /** Series "1" with seasons "10" (index 2) and "11" (index 1); episodes "111"
      and "112" (indices 1 and 2) of season "11" and "101" of season "10"; and
      season "99" of a series "404" that is not in the batch. */
  predicate ExampleItems(show: BaseItemDto, secondSeason: BaseItemDto, firstSeason: BaseItemDto, orphan: BaseItemDto,
                         pilot: BaseItemDto, second: BaseItemDto, finale: BaseItemDto)
  {
    && show.itemType == SeriesType && show.id == "1"
    && secondSeason.itemType == SeasonType && secondSeason.id == "10" && secondSeason.seriesId == "1"
    && secondSeason.indexNumber == 2
    && firstSeason.itemType == SeasonType && firstSeason.id == "11" && firstSeason.seriesId == "1"
    && firstSeason.indexNumber == 1
    && orphan.itemType == SeasonType && orphan.id == "99" && orphan.seriesId == "404"
    && pilot.itemType == EpisodeType && pilot.seriesId == "1" && pilot.seasonId == "11" && pilot.indexNumber == 1
    && second.itemType == EpisodeType && second.seriesId == "1" && second.seasonId == "11" && second.indexNumber == 2
    && finale.itemType == EpisodeType && finale.seriesId == "1" && finale.seasonId == "10" && finale.indexNumber == 1
  }

  lemma ClassifySeries(dto: seq<BaseItemDto>, d: BaseItemDto)
    requires d.itemType == SeriesType
    ensures Classify(dto + [d]) == (SeriesRows(dto) + [SeriesRow(d)], SeasonRows(dto), EpisodeRows(dto))
  {
    assert (dto + [d])[..|dto|] == dto;
  }

  lemma ClassifySeason(dto: seq<BaseItemDto>, d: BaseItemDto)
    requires d.itemType == SeasonType
    ensures Classify(dto + [d]) == (SeriesRows(dto), SeasonRows(dto) + [SeasonRow(d)], EpisodeRows(dto))
  {
    assert (dto + [d])[..|dto|] == dto;
  }

  lemma ClassifyEpisode(dto: seq<BaseItemDto>, d: BaseItemDto)
    requires d.itemType == EpisodeType
    ensures Classify(dto + [d]) == (SeriesRows(dto), SeasonRows(dto), EpisodeRows(dto) + [EpisodeRow(d)])
  {
    assert (dto + [d])[..|dto|] == dto;
  }

  lemma BatchClassified(show: BaseItemDto, secondSeason: BaseItemDto, firstSeason: BaseItemDto, orphan: BaseItemDto,
                        pilot: BaseItemDto, second: BaseItemDto, finale: BaseItemDto)
    requires ExampleItems(show, secondSeason, firstSeason, orphan, pilot, second, finale)
    ensures var batch := [orphan, second, show, secondSeason, finale, firstSeason, pilot];
            && SeriesRows(batch) == [SeriesRow(show)]
            && SeasonRows(batch) == [SeasonRow(orphan), SeasonRow(secondSeason), SeasonRow(firstSeason)]
            && EpisodeRows(batch) == [EpisodeRow(second), EpisodeRow(finale), EpisodeRow(pilot)]
  {
    var b1 := [orphan];
    var b2 := b1 + [second];
    var b3 := b2 + [show];
    var b4 := b3 + [secondSeason];
    var b5 := b4 + [finale];
    var b6 := b5 + [firstSeason];
    ClassifySeason([], orphan);
    assert [] + [orphan] == b1;
    ClassifyEpisode(b1, second);
    ClassifySeries(b2, show);
    ClassifySeason(b3, secondSeason);
    ClassifyEpisode(b4, finale);
    ClassifySeason(b5, firstSeason);
    ClassifyEpisode(b6, pilot);
    SevenInOrder(orphan, second, show, secondSeason, finale, firstSeason, pilot);
  }

  /** A batch of seven items is built by appending them one at a time. */
  lemma SevenInOrder(a: BaseItemDto, b: BaseItemDto, c: BaseItemDto, d: BaseItemDto, e: BaseItemDto,
                     f: BaseItemDto, g: BaseItemDto)
    ensures [a] + [b] + [c] + [d] + [e] + [f] + [g] == [a, b, c, d, e, f, g]
  {
  }

  /** Filtering three rows, one at a time. */
  lemma FilterThree(a: TVShowData, b: TVShowData, c: TVShowData, p: TVShowData -> bool)
    ensures Filter([a, b, c], p) == (if p(a) then [a] else []) + (if p(b) then [b] else []) + (if p(c) then [c] else [])
  {
    FilterAppend([], a, p);
    assert [] + [a] == [a];
    FilterAppend([a], b, p);
    assert [a] + [b] == [a, b];
    FilterAppend([a, b], c, p);
    assert [a, b] + [c] == [a, b, c];
  }

  /** Series "1" gets its two seasons, by index; the orphan is not among them. */
  lemma SeasonOrder(s: TVShowData, n0: TVShowData, n1: TVShowData, n2: TVShowData, ns: seq<TVShowData>)
    requires s.seriesID == "1" && n0.seriesID == "404" && n1.seriesID == "1" && n2.seriesID == "1"
    requires n1.sortIndex == 1 && n2.sortIndex == 2
    requires SortedPermutation(ns, SeasonsOf(s, [n0, n2, n1]), ByIndex)
    ensures ns == [n1, n2]
  {
    FilterThree(n0, n2, n1, OfSeries(s.seriesID));
    assert multiset([n2, n1]) == multiset([n1, n2]);
    SortedPair(ns, n1, n2, ByIndex);
  }

  /** Season "11" gets the first two episodes, by index. */
  lemma FirstSeasonEpisodes(n1: TVShowData, e1: TVShowData, e2: TVShowData, e3: TVShowData, es: seq<TVShowData>)
    requires n1.seriesID == "1" && n1.seasonID == "11"
    requires e1.seriesID == "1" && e1.seasonID == "11" && e1.sortIndex == 1
    requires e2.seriesID == "1" && e2.seasonID == "11" && e2.sortIndex == 2
    requires e3.seriesID == "1" && e3.seasonID == "10"
    requires SortedPermutation(es, EpisodesOf(n1, [e2, e3, e1]), ByIndex)
    ensures es == [e1, e2]
  {
    FilterThree(e2, e3, e1, OfSeason(n1.seriesID, n1.seasonID));
    assert multiset([e2, e1]) == multiset([e1, e2]);
    SortedPair(es, e1, e2, ByIndex);
  }

  /** Season "10" gets the third episode. */
  lemma SecondSeasonEpisodes(n2: TVShowData, e1: TVShowData, e2: TVShowData, e3: TVShowData, es: seq<TVShowData>)
    requires n2.seriesID == "1" && n2.seasonID == "10"
    requires e1.seriesID == "1" && e1.seasonID == "11"
    requires e2.seriesID == "1" && e2.seasonID == "11"
    requires e3.seriesID == "1" && e3.seasonID == "10"
    requires SortedPermutation(es, EpisodesOf(n2, [e2, e3, e1]), ByIndex)
    ensures es == [e3]
  {
    FilterThree(e2, e3, e1, OfSeason(n2.seriesID, n2.seasonID));
    SortedSingle(es, e3, ByIndex);
  }

  /** The orders the sorts must choose for the worked batch, on its rows. */
  lemma ExampleOrders(s: TVShowData, n0: TVShowData, n1: TVShowData, n2: TVShowData,
                      e1: TVShowData, e2: TVShowData, e3: TVShowData,
                      ss: seq<TVShowData>, nss: seq<seq<TVShowData>>, esss: seq<seq<seq<TVShowData>>>)
    requires s.seriesID == "1" && n0.seriesID == "404"
    requires n1.seriesID == "1" && n1.seasonID == "11" && n1.sortIndex == 1
    requires n2.seriesID == "1" && n2.seasonID == "10" && n2.sortIndex == 2
    requires e1.seriesID == "1" && e1.seasonID == "11" && e1.sortIndex == 1
    requires e2.seriesID == "1" && e2.seasonID == "11" && e2.sortIndex == 2
    requires e3.seriesID == "1" && e3.seasonID == "10"
    requires SortedPermutation(ss, [s], ByName)
    requires SeriesOrders(ss, nss, esss, [n0, n2, n1], [e2, e3, e1])
    ensures ss == [s] && nss == [[n1, n2]] && esss == [[[e1, e2], [e3]]]
  {
    SortedSingle(ss, s, ByName);
    var ns, ess := SingleSeriesOrders(s, ss, nss, esss, [n0, n2, n1], [e2, e3, e1]);
    SeasonOrder(s, n0, n1, n2, ns);
    EpisodeOrdersOfExample(n1, n2, e1, e2, e3, ess);
  }

  /** The orders chosen for a batch with a single series: one season order and
      one list of episode orders. */
  lemma SingleSeriesOrders(s: TVShowData, ss: seq<TVShowData>, nss: seq<seq<TVShowData>>,
                           esss: seq<seq<seq<TVShowData>>>, allSeasons: seq<TVShowData>, allEpisodes: seq<TVShowData>)
      returns (ns: seq<TVShowData>, ess: seq<seq<TVShowData>>)
    requires ss == [s] && SeriesOrders(ss, nss, esss, allSeasons, allEpisodes)
    ensures nss == [ns] && esss == [ess]
    ensures SortedPermutation(ns, SeasonsOf(s, allSeasons), ByIndex) && EpisodeOrders(ns, ess, allEpisodes)
  {
    ns, ess := nss[0], esss[0];
  }

  lemma EpisodeOrdersOfExample(n1: TVShowData, n2: TVShowData, e1: TVShowData, e2: TVShowData, e3: TVShowData,
                               ess: seq<seq<TVShowData>>)
    requires n1.seriesID == "1" && n1.seasonID == "11"
    requires n2.seriesID == "1" && n2.seasonID == "10"
    requires e1.seriesID == "1" && e1.seasonID == "11" && e1.sortIndex == 1
    requires e2.seriesID == "1" && e2.seasonID == "11" && e2.sortIndex == 2
    requires e3.seriesID == "1" && e3.seasonID == "10"
    requires EpisodeOrders([n1, n2], ess, [e2, e3, e1])
    ensures ess == [[e1, e2], [e3]]
  {
    FirstSeasonEpisodes(n1, e1, e2, e3, ess[0]);
    SecondSeasonEpisodes(n2, e1, e2, e3, ess[1]);
    assert ess == [ess[0], ess[1]];
  }

  /** The table of the worked batch. */
  lemma TVExampleTable(show: BaseItemDto, secondSeason: BaseItemDto, firstSeason: BaseItemDto, orphan: BaseItemDto,
                       pilot: BaseItemDto, second: BaseItemDto, finale: BaseItemDto,
                       result: seq<TVShowData>, ss: seq<TVShowData>, nss: seq<seq<TVShowData>>,
                       esss: seq<seq<seq<TVShowData>>>)
    requires ExampleItems(show, secondSeason, firstSeason, orphan, pilot, second, finale)
    requires TVLayout([orphan, second, show, secondSeason, finale, firstSeason, pilot], result, ss, nss, esss)
    ensures result == [
      SeriesRow(show),
      Inherit(EpisodeRow(pilot), SeriesRow(show), SeasonRow(firstSeason)),
      Inherit(EpisodeRow(second), SeriesRow(show), SeasonRow(firstSeason)),
      Inherit(EpisodeRow(finale), SeriesRow(show), SeasonRow(secondSeason))]
  {
    BatchClassified(show, secondSeason, firstSeason, orphan, pilot, second, finale);
    ExampleOrders(SeriesRow(show), SeasonRow(orphan), SeasonRow(firstSeason), SeasonRow(secondSeason),
                  EpisodeRow(pilot), EpisodeRow(second), EpisodeRow(finale), ss, nss, esss);
    ExampleLayout(SeriesRow(show), SeasonRow(firstSeason), SeasonRow(secondSeason),
                  EpisodeRow(pilot), EpisodeRow(second), EpisodeRow(finale));
  }

  lemma ExampleLayout(s: TVShowData, n1: TVShowData, n2: TVShowData, e1: TVShowData, e2: TVShowData, e3: TVShowData)
    ensures Layout([s], [[n1, n2]], [[[e1, e2], [e3]]]) ==
            [s, Inherit(e1, s, n1), Inherit(e2, s, n1), Inherit(e3, s, n2)]
  {
    assert [e1, e2][..1] == [e1] && [e1][..0] == [] && [e3][..0] == [];
    assert Inherited(s, n1, [e1]) == [Inherit(e1, s, n1)];
    assert Inherited(s, n1, [e1, e2]) == [Inherit(e1, s, n1), Inherit(e2, s, n1)];
    assert Inherited(s, n2, [e3]) == [Inherit(e3, s, n2)];
    assert [n1, n2][..1] == [n1] && [n1][..0] == [];
    assert [[e1, e2], [e3]][..1] == [[e1, e2]] && [[e1, e2]][..0] == [];
    assert SeasonsBlock(s, [n1], [[e1, e2]]) == [Inherit(e1, s, n1), Inherit(e2, s, n1)];
    assert SeasonsBlock(s, [n1, n2], [[e1, e2], [e3]]) == [Inherit(e1, s, n1), Inherit(e2, s, n1), Inherit(e3, s, n2)];
    assert [s][..0] == [];
  }
}
