/** The two flat display builders: one row per item, in the order received. */
module FlatRows {
  import opened Text
  import opened Emby
  import opened Summaries

  datatype MovieData = MovieData(
    name: string,
    originalTitle: string,
    productionYear: string,
    runtime: string,
    actors: string,
    directors: string,
    studios: string,
    genres: string,
    container: string,
    codecs: string,
    resolution: string,
    path: string)

  datatype HomeVideoData = HomeVideoData(
    name: string,
    runtime: string,
    container: string,
    codecs: string,
    resolution: string,
    path: string)

  /** The movie row derived from one item. */
  function MovieRow(d: BaseItemDto): MovieData
  {
    MovieData(
      name := d.name,
      originalTitle := d.originalTitle,
      productionYear := IntToString(d.productionYear),
      runtime := EvalRuntime(d.runTimeTicks),
      actors := PeopleSummary(d.people).0,
      directors := PeopleSummary(d.people).1,
      studios := StudiosSummary(d.studios),
      genres := CommaList(d.genres),
      container := d.container,
      codecs := CodecPair(d.mediaSources),
      resolution := EvalResolution(d.width, d.height),
      path := d.path)
  }

  /** The home-video row derived from one item. */
  function HomeVideoRow(d: BaseItemDto): HomeVideoData
  {
    HomeVideoData(
      name := d.name,
      runtime := EvalRuntime(d.runTimeTicks),
      container := d.container,
      codecs := CodecPair(d.mediaSources),
      resolution := EvalResolution(d.width, d.height),
      path := d.path)
  }

  /** GetMovieDisplayData: exactly one row per item, in input order; the item
      type is not looked at. */
  method GetMovieDisplayData(dto: seq<BaseItemDto>) returns (result: seq<MovieData>)
    ensures |result| == |dto|
    ensures forall i :: 0 <= i < |dto| ==> result[i] == MovieRow(dto[i])
  {
    result := [];
    var i := 0;
    while i < |dto|
      invariant 0 <= i <= |dto|
      invariant |result| == i
      invariant forall k :: 0 <= k < i ==> result[k] == MovieRow(dto[k])
    {
      var movie := MovieOf(dto[i]);
      AppendRow(result, movie, dto, i, MovieRow);
      result := result + [movie];
      i := i + 1;
    }
  }

  /** The body of the movie loop: one row, its summaries computed by the helpers. */
  method MovieOf(d: BaseItemDto) returns (movie: MovieData)
    ensures movie == MovieRow(d)
  {
    var studios := EvalStudios(d.studios);
    var actors, directors := EvalPeople(d.people);
    var genres := EvalGenres(d.genres);
    var codecs := EvalCodecs(d.mediaSources);
    assert actors == PeopleSummary(d.people).0 && directors == PeopleSummary(d.people).1;
    movie := MovieData(
      name := d.name,
      originalTitle := d.originalTitle,
      productionYear := IntToString(d.productionYear),
      runtime := EvalRuntime(d.runTimeTicks),
      actors := actors,
      directors := directors,
      studios := studios,
      genres := genres,
      container := d.container,
      codecs := codecs,
      resolution := EvalResolution(d.width, d.height),
      path := d.path);
  }

  /** GetHomeVideoDisplayData: exactly one row per item, in input order; the item
      type is not looked at. */
  method GetHomeVideoDisplayData(dto: seq<BaseItemDto>) returns (result: seq<HomeVideoData>)
    ensures |result| == |dto|
    ensures forall i :: 0 <= i < |dto| ==> result[i] == HomeVideoRow(dto[i])
  {
    result := [];
    var i := 0;
    while i < |dto|
      invariant 0 <= i <= |dto|
      invariant |result| == i
      invariant forall k :: 0 <= k < i ==> result[k] == HomeVideoRow(dto[k])
    {
      var video := HomeVideoOf(dto[i]);
      AppendRow(result, video, dto, i, HomeVideoRow);
      result := result + [video];
      i := i + 1;
    }
  }

  /** The body of the home-video loop. */
  method HomeVideoOf(d: BaseItemDto) returns (video: HomeVideoData)
    ensures video == HomeVideoRow(d)
  {
    var codecs := EvalCodecs(d.mediaSources);
    video := HomeVideoData(
      name := d.name,
      runtime := EvalRuntime(d.runTimeTicks),
      container := d.container,
      codecs := codecs,
      resolution := EvalResolution(d.width, d.height),
      path := d.path);
  }

  /** One more row for the next item keeps the rows matching the items. */
  lemma AppendRow<R>(rows: seq<R>, r: R, dto: seq<BaseItemDto>, i: nat, f: BaseItemDto -> R)
    requires i < |dto| && |rows| == i && r == f(dto[i])
    requires forall k :: 0 <= k < i ==> rows[k] == f(dto[k])
    ensures forall k :: 0 <= k <= i ==> (rows + [r])[k] == f(dto[k])
  {
  }

  /** The year column reads back as the item's production year, 0 as "0". */
  lemma MovieYearRoundTrip(d: BaseItemDto)
    ensures var y := MovieRow(d).productionYear;
            |y| >= 1 && (forall k :: 0 < k < |y| ==> IsDigit(y[k])) && (IsDigit(y[0]) || y[0] == '-') &&
            ParseInt(y) == d.productionYear as int
    ensures d.productionYear == 0 ==> MovieRow(d).productionYear == "0"
  {
    IntToStringRoundTrip(d.productionYear as int);
  }
}
