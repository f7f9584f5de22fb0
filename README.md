# EmbyExplorer display-data core, modelled in Dafny

EmbyExplorer is a desktop browser for the catalog of an Emby media server. It
fetches the items of a movie, TV-show or home-video library over the server's
REST API. It then turns the flat list of items into table rows. This project
models that derivation and proves what it promises:

- **Summaries.** These are the per-item summary strings:
  - runtime from 100 ns ticks
  - `WxH` resolution
  - the last video and last audio codec of the first media source, with a `-` placeholder
  - actors capped at 5, directors at 2 and studios at 1
  - genres, uncapped
- **Field lists.** The comma-separated field list requested per collection type.
- **Flat builders.** These make one row per item for movies and home videos.
- **TV rebuild.** It rebuilds the series → season → episode tree from an
  unordered batch. It partitions by item type, sorts, joins seasons to series
  and episodes to seasons, copies series attributes down to the episodes, and
  emits series rows and episode rows.
- **REST client, pure parts.** These are:
  - the URL templates and the query string of the item request
  - the `key="value"` pairs of the authorization header
  - the case-insensitive user lookup
  - the view and item-type filters applied to the decoded lists
- **Preferences store.** It has a completeness test.

Module layout:

| module | role |
|---|---|
| `Text` | models of Go's `strings.Join`/`Split`/`Replace(…, 1)`/`ToUpper`, `strconv.Itoa` and string `<` |
| `Seqs` | order-preserving filtering |
| `Emby` | the data-transfer objects, reduced to the fields the core reads |
| `Summaries` | the `eval*` helpers |
| `FieldSets` | `GetFields` |
| `FlatRows` | the movie and home-video builders |
| `TVRows` | the TV row type, partition, join and inheritance functions, and the output layout |
| `Sorting` | the orders used by `sort.Slice` and an in-place array sort |
| `TVShows` | the TV builder as imperative code |
| `TVProperties` | what the TV output guarantees |
| `TVExample` | a worked seven-item batch |
| `Api` | the REST client's pure parts |
| `Settings` | the preferences store |

Code that loops in the program is a `method` with loop invariants, proved
against a function that states what it computes. Examples are `GetFields`,
`evalPeople`, the builders, the filters and the user lookup. The TV builder
sorts with `sort.Slice`, which is not stable. Each sort is therefore an
in-place sort of an array whose contract is "sorted and a permutation". The
order among rows with equal keys stays open, and the builder's contract is
stated over whichever orders the sorts chose. The package-level state of the
REST client (`BasicUrl`, the connection settings) and of the preferences store
becomes a `class` with fields and `modifies` clauses.

The row type could carry a series → season → episode view, but the code
appends only series rows (api/fields.go:175) and episode rows
(api/fields.go:208), and the model does the same. Season rows are used to join and to label episodes, but
they are never emitted. The season copy that receives the series name
(api/fields.go:188) is discarded. `TVProperties.TVNoSeasonRows` proves that
no season row appears.

## Model

| member | source | states |
|---|---|---|
| Summaries.AppendSeparatedStep | api/fields.go:324-342 | appending one more name to a separated list built by commaString/commaStringNoSpace extends the list by that name, with the separator only when the accumulator is non-empty |
| Summaries.SeparatedListOfNonEmpty | api/fields.go:324-342 | folding non-empty names with the separator from "" is the same as joining them |
| Summaries.CommaString | api/fields.go:324-332 | appending an item to a text with ", " gives the comma list of the two: the item alone when the text is empty, nothing added when both are empty |
| Summaries.CommaStringNoSpace | api/fields.go:334-342 | the same with ",": the separated list of the text and the item |
| Summaries.EvalGenres | api/fields.go:267-273 | every genre, in order, joined with ", " |
| Summaries.EvalStudios | api/fields.go:230-240 | at most one studio, the first; "" when there are none |
| Summaries.NamesWithTypeAppend | api/fields.go:242-265 | selecting names of one role distributes over concatenation of the people list |
| Summaries.PeopleSummaryPastCaps | api/fields.go:242-265 | once both caps are reached, further people change nothing, so the early break never changes the result |
| Summaries.PeopleStep | api/fields.go:242-265 | one more person extends the capped list of its role only while that role is under its cap |
| Summaries.EvalPeople | api/fields.go:242-265 | the first min(5, #actors) actor names and the first min(2, #directors) director names, in input order, each joined with ", "; other roles ignored |
| Summaries.CountPerson | api/fields.go:248-259 | one person for one role: the counter counts the people of that role, and the name list is the first cap names of that role |
| Summaries.PeopleSummaryOfPrefix | api/fields.go:260-264 | stopping once both counters pass their caps gives the same result as reading every person |
| Summaries.LastCodecAt | api/fields.go:291-314 | the codec chosen for a stream type is that of the last stream of that type |
| Summaries.LastCodecNone | api/fields.go:291-314 | with no stream of the type, no codec is chosen |
| Summaries.EvalCodecs | api/fields.go:291-314 | "" exactly for an empty media list; otherwise "<video>, <audio>" from the first source, "-" for a missing or empty codec |
| Summaries.EvalRuntime | api/fields.go:275-289 | "" for ticks ≤ 0, and "" exactly when the runtime is under one minute |
| Summaries.HoursAndMinutes | api/fields.go:275-289 | hours and leftover minutes computed from seconds agree with those computed from whole minutes |
| Summaries.ReadHoursMinutes | api/fields.go:275-289 | the "<h>h<m>m" text with zero parts omitted reads back as the hours and minutes |
| Summaries.RuntimeRoundTrip | api/fields.go:275-289 | the runtime text reads back as hours = minutes / 60 and minutes = minutes mod 60 of the whole minutes |
| Summaries.RuntimeExamples | api/fields.go:275-289 | 36,000,000,000 ticks give "1h", 54,000,000,000 give "1h30m", 27,000,000,000 give "45m"; under a minute, zero and negative give "" |
| Summaries.EvalResolution | api/fields.go:316-322 | non-empty exactly when width and height are both positive |
| Summaries.ResolutionRoundTrip | api/fields.go:316-322 | for positive sizes, splitting "WxH" at 'x' gives back the two numbers |
| FieldSets.FieldNamesPlain | api/fields.go:19-32 | every field name is non-empty and made of letters and underscores |
| FieldSets.GetFields | api/fields.go:34-52 | the fixed list of the collection type joined with "," (no spaces, no leading comma); "" for another type |
| FieldSets.FieldListRoundTrip | api/fields.go:34-52 | splitting the list at its commas gives the table back; the table is empty exactly for an unknown collection type |
| FieldSets.FieldsIncludeType | api/fields.go:19-32 | every known collection type requests the item type |
| FlatRows.GetMovieDisplayData | api/fields.go:98-116 | exactly one row per input record, in input order, without filtering on the item type |
| FlatRows.MovieOf | api/fields.go:101-113 | the row of one record, with every column as the loop body assigns it |
| FlatRows.GetHomeVideoDisplayData | api/fields.go:215-228 | exactly one row per input record, in input order |
| FlatRows.HomeVideoOf | api/fields.go:215-228 | the row of one record |
| FlatRows.MovieYearRoundTrip | api/fields.go:104 | the year column is the decimal rendering of the year and reads back as it; year 0 gives "0" |
| TVRows.SeriesRowsMembers | api/fields.go:124-161 | the series list holds exactly the rows of the Series-type records |
| TVRows.SeasonRowsMembers | api/fields.go:124-161 | the season list holds exactly the rows of the Season-type records |
| TVRows.EpisodeRowsMembers | api/fields.go:124-161 | the episode list holds exactly the rows of the Episode-type records |
| TVRows.Inherited | api/fields.go:200-209 | the episodes of one season keep their number after inheritance |
| TVRows.LayoutPrefix | api/fields.go:174-211 | emitting one more series appends its row and then its seasons' episode blocks |
| TVRows.SeasonsBlockPrefix | api/fields.go:187-210 | emitting one more season appends its inherited episodes |
| TVRows.InheritedPrefix | api/fields.go:200-209 | emitting one more episode appends it, with series and season attributes copied in |
| TVRows.LayoutAll | api/fields.go:174-211 | a property of every series row and every inherited episode holds of every output row |
| TVRows.SeasonsBlockAll | api/fields.go:187-210 | the same, for the episode block of one series |
| TVRows.InheritedAll | api/fields.go:200-209 | the same, for the episodes of one season |
| TVRows.LayoutContains | api/fields.go:174-211 | every joined episode appears in the output, inherited from its series and season |
| TVRows.SeasonsBlockContains | api/fields.go:187-210 | the same, within one series' block |
| TVRows.InheritedContains | api/fields.go:200-209 | the same, within one season |
| Sorting.LessAsymmetric | api/fields.go:163-199 | each sort's less-than is asymmetric |
| Sorting.NotLessTransitive | api/fields.go:163-199 | "not less" is transitive for each sort's less-than |
| Text.LexLessIrreflexive | api/fields.go:163-173 | no string sorts before itself under Go's string `<` |
| Text.LexLessTransitive | api/fields.go:163-173 | Go's string `<` is transitive |
| Text.LexLessTotal | api/fields.go:163-173 | of two different strings, one sorts before the other |
| Text.LexLessAsymmetric | api/fields.go:163-173 | no two strings each sort before the other |
| Text.LexNotLessTransitive | api/fields.go:163-173 | "not before" is transitive, so the name and series-id orders are total preorders |
| Sorting.SortedSingle | api/fields.go:163-199 | a sorted permutation of one row is that row |
| Sorting.SortedPair | api/fields.go:163-199 | two rows with different keys have only one sorted order |
| Sorting.SortRows | api/fields.go:163-199 | sort.Slice: afterwards the array is ordered by the key and is a permutation of what it held |
| Sorting.InsertAt | api/fields.go:163-199 | one insertion step extends the sorted prefix and keeps the multiset |
| Sorting.SwapDown | api/fields.go:163-199 | swapping a row below a greater neighbour keeps the insertion invariant |
| Sorting.InsertDone | api/fields.go:163-199 | when the row is no less than its left neighbour, the prefix is sorted |
| Sorting.Swap | api/fields.go:163-199 | exchanges two entries and keeps the multiset |
| Sorting.SortedCopy | api/fields.go:163-199 | a sorted permutation of the slice |
| TVShows.ClassifyItems | api/fields.go:124-161 | the partition loop builds exactly the series, season and episode lists, each in input order; other types are ignored |
| TVShows.SeasonsForSeries | api/fields.go:176-182 | the seasons whose series id is the series', in order |
| TVShows.EpisodesForSeason | api/fields.go:190-195 | the episodes whose series id and season id are the season's, in order |
| TVShows.EmitSeason | api/fields.go:187-210 | the episodes of one season, sorted by index and permuted from its matching episodes, each inherited |
| TVShows.EmitSeasons | api/fields.go:187-210 | the episode blocks of a series' seasons, in season order |
| TVShows.EmitSeries | api/fields.go:174-211 | a series row followed by its matching seasons, sorted by index, each with its sorted episodes |
| TVShows.EmitAll | api/fields.go:174-211 | the whole output: every series in order, each with its block |
| TVShows.EpisodeOrdersPrefix | api/fields.go:187-210 | the per-season episode orders extend season by season |
| TVShows.SeriesOrdersPrefix | api/fields.go:174-211 | the per-series season orders extend series by series |
| TVShows.GetTVShowDisplayData | api/fields.go:118-213 | the output is the layout of series sorted by name (a permutation of the Series records); each series is followed by its matching seasons sorted by index; each season contributes its matching episodes sorted by index, with inherited attributes |
| TVProperties.ClassifiedTypes | api/fields.go:124-161 | rows in the series, season and episode lists carry their item type |
| TVProperties.JoinFacts | api/fields.go:176-195 | every emitted episode comes from an Episode record whose series and season ids match a Season record, and that season's series id matches a Series record |
| TVProperties.TVNoSeasonRows | api/fields.go:174-211 | every output row is a series row or an episode row; no Season-type row is emitted |
| TVProperties.TVSeriesRowsByName | api/fields.go:162-175 | the series rows of the output, in output order, are sorted by name and are a permutation of the Series records |
| TVProperties.LayoutSeriesRows | api/fields.go:174-211 | when every series row is a series and no episode block holds a series row, selecting the series rows of the layout gives the series order back |
| TVProperties.BlockWithoutSeries | api/fields.go:187-210 | the episode block after a series row holds no series row |
| TVProperties.TVEpisodeRowsJoined | api/fields.go:187-209 | every episode row in the output is an episode of a season of a series in the batch, shown with the series name, season name, genres and studios, and with its own actors unless empty |
| TVProperties.ShownAt | api/fields.go:200-209 | each inherited episode is such a joined row |
| TVProperties.InheritShows | api/fields.go:200-207 | the inherited row shows series name, season name, series genres and studios, the series' actors only when its own are "", and its own remaining columns |
| TVProperties.TVEpisodesComplete | api/fields.go:174-211 | every Episode record joined to a Season record of a Series record in the batch appears in the output, inherited |
| TVExample.BatchClassified | api/fields.go:124-161 | the example batch partitions into one series, three seasons and three episodes |
| TVExample.SeasonOrder | api/fields.go:176-186 | the orphan season is dropped and the two seasons of the series come out by index |
| TVExample.FirstSeasonEpisodes | api/fields.go:190-199 | the first season's two episodes come out by index; the other season's episode is not among them |
| TVExample.SecondSeasonEpisodes | api/fields.go:190-199 | the second season gets only its own episode |
| TVExample.ExampleOrders | api/fields.go:162-199 | all orders the sorts can produce on the example are fixed |
| TVExample.EpisodeOrdersOfExample | api/fields.go:187-199 | the per-season episode orders of the example are fixed |
| TVExample.TVExampleTable | api/fields.go:118-213 | for series, orphan season, two seasons given out of order and three episodes, the output is the series row then its three episodes, first season's by index first, each inherited; no season row and no orphan |
| TVExample.ExampleLayout | api/fields.go:174-211 | the layout of the example orders written out |
| Api.BasicUrlShape | api/api.go:111-120 | "https://" when secure and "http://" otherwise; for a host name free of "$port", the scheme, host, ":", port and "/emby" |
| Api.HostReplaced | api/api.go:118 | the host name replaces the "$hostname" placeholder |
| Api.HostReplacedAfter | api/api.go:118 | the "$hostname" placeholder after a scheme is the first one, and it is replaced by the host name |
| Api.PortReplaced | api/api.go:119 | the port replaces the "$port" placeholder when the host name holds none |
| Api.UserEndpoint | api/api.go:126-130 | the user id replaces the "$userid" placeholder after "/Users/", when the base URL has none |
| Api.Client.InitApiPreferences | api/api.go:102-109 | stores the five settings and the base URL built from them |
| Api.Client.CreateBasicUrl | api/api.go:111-120 | sets the base URL from the template and leaves the settings alone |
| Api.Client.constructor | api/api.go:98-100 | the client starts with an empty base URL and empty connection settings, the zero values of the package variables |
| Api.Client.CreateRestUrl | api/api.go:122-124 | the base URL is a prefix and the endpoint is the rest |
| Api.Client.CreateRestUrlForUser | api/api.go:126-130 | a URL without "$userid" is left as it is; an endpoint "/Users/$userid…" under a base URL without "$userid" gets the id in that place and nowhere else |
| Api.Client.ItemsUrlForUser | api/api.go:126-130 | for the items endpoint, the base URL + "/Users/" + id + "/Items" |
| Api.Client.ViewsUrlForUser | api/api.go:126-130 | for the views endpoint, the base URL + "/Users/" + id + "/Views" |
| Api.Client.UserViewsUrl | api/api.go:198-199 | the views URL of the user followed by "?api_key=" and the token; under a base URL without "$userid", exactly base + "/Users/" + id + "/Views?api_key=" + token |
| Api.Client.UserItemsUrl | api/api.go:231-235 | the items URL of the user followed by "?" and the query string of token, "Recursive=true", parent id and field list; under a base URL without "$userid", exactly base + "/Users/" + id + "/Items?" + that query |
| Api.ItemsQueryText | api/api.go:232-235 | the query string is the four parameters with "&" between them |
| Api.ItemsUrlText | api/api.go:231-235 | the URL assembled piece by piece is the user items URL, "?" and the query string |
| Api.ItemsQueryRoundTrip | api/api.go:231-235 | with no "&" in token and collection id, splitting the query at "&" gives back the four parameters |
| Api.CreatePair | api/api.go:281-284 | the key, then `="`, the value and a closing quote |
| Api.PairKey | api/api.go:281-284 | the key part of a pair: the text before its first "=" |
| Api.PairRoundTrip | api/api.go:281-284 | a pair whose key has no "=" reads back as key and value |
| Api.HeaderJoined | api/api.go:286-293 | the header is "Emby " and the five pairs, separated by ", " |
| Api.CreateHeader | api/api.go:286-293 | with no comma in id, system or host name, reading the header back (split at commas, strip "Emby " and the spaces, parse each pair) gives the five key/value pairs in order: UserId, Client "PC", Device, DeviceId, Version "1.0.0.0" |
| Api.HeaderItemsReadBack | api/api.go:286-293 | the five pieces of the header read back as its five key/value pairs |
| Api.ReadPairsCons | api/api.go:281-293 | a piece " key=\"value\"" in front reads back as (key, value) in front |
| Api.HeaderRoundTrip | api/api.go:286-293 | with no comma in id, system or host name, the header splits at its commas into five pieces: "Emby " with the UserId pair, then the four other pairs each after a space; the UserId, Device and DeviceId pairs read back |
| Api.FirstUserNamed | api/api.go:150-155 | the first user whose upper-cased name equals the upper-cased query; none when no user matches |
| Api.FindUserIdByName | api/api.go:150-155 | the id of that first match, "" when there is none |
| Api.UpperIdempotent | api/api.go:151 | upper-casing is idempotent, so a name matches its own upper-cased form |
| Api.ViewsOfSelected | api/api.go:213-224 | the views are the items with an allowed collection type, one view each, in order, copying name, collection type and id |
| Api.UserGetViews | api/api.go:213-224 | the nested loop over items and allowed collection types builds exactly those views |
| Api.FilterItems | api/api.go:249-265 | the items the collection type keeps, in input order |
| Api.KeptItems | api/api.go:249-265 | an item is kept exactly when it is in the input with a type its collection displays (Movie; Series, Season or Episode; Video); any other collection type keeps nothing |
| Settings.PreferencesStore.constructor | settings/settings.go:17 | the store starts at the zero record |
| Settings.PreferencesStore.SetPreferencesDetail | settings/settings.go:19-26 | every field overwritten; nothing of the previous record survives |
| Settings.PreferencesStore.SetPreferences | settings/settings.go:28-30 | the record replaced as a whole |
| Settings.PreferencesStore.GetPreferences | settings/settings.go:32-34 | the stored record; the store unchanged |
| Settings.PreferencesStore.GetPreferencesDetail | settings/settings.go:36-39 | the six stored fields; the store unchanged |
| Settings.PreferencesStore.Valid | settings/settings.go:41-44 | the zero record the store starts with is not valid, and validity depends on neither the secure flag nor the window position |
| Settings.DetailRoundTrip | settings/settings.go:19-44 | setting six values and reading them back gives them; Valid holds exactly when server, port, user and password are non-empty and width and height are positive |
| Settings.WholeRoundTrip | settings/settings.go:28-34 | storing a record and reading it back, twice, gives that record |
| Settings.DetailIsWhole | settings/settings.go:19-30 | setting field by field and setting the whole record give the same store |

## Left out

- The HTTP requests, the JSON encoding and decoding, and the error returns they produce (`http.Get`, `client.Do`, `io.ReadAll`, `json.Marshal`/`Unmarshal`). Each filter and URL function takes already-decoded values.
- `AuthenticateUserByCredentials`, `AuthenticateUserInt`, `UserGetViewsInt` and `UserGetItenmsInt`: they only chain the modelled pieces with network calls.
- `Api.CreateHeader` takes the operating system name and the host name as parameters. The program asks the runtime and `os.Hostname` for them, and ignores a host-name error.
- Api.UpperIdempotent and the user lookup: `strings.ToUpper` is modelled on ASCII letters only. The Unicode case mapping is not modelled.
- The window rectangle's float32 coordinates are reals (`Settings.Rect`). Only the sign test of `Valid` is examined, so no float arithmetic is modelled.
- TVShows.GetTVShowDisplayData, Sorting.SortRows: `sort.Slice`'s algorithm and its order among equal keys are not modelled. The sort is an insertion sort whose contract is only "ordered and a permutation", and the TV builder's contract holds for every such order.
- The pre-sorts of seasons and episodes by series id (api/fields.go:166-173) are performed. The TV contract says nothing about them, because the later filters and index sorts decide the output up to ties.
- The name copied into the season row (api/fields.go:188) is performed but never observable, because season rows are not emitted.
- Idempotence or determinism of the TV output is not claimed: rows with equal keys may come out in either order.
- The models, UI, preference-file and start-up code of the application are not part of this model.
- A person or stream whose type field is absent makes the program dereference nil (api/fields.go:248, 297). The model gives every person and stream a type; a role or stream kind other than the two the code compares against is one value, whose name differs from theirs.
- Go's `int32`/`int64` appear as bounded subtypes of `int`. No arithmetic in the core can overflow them: the runtime divides `int64` ticks, and the year and sizes are only rendered.
