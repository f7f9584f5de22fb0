/** The parts of the Emby data-transfer objects that the display-data derivation
    reads, and the fixed vocabularies of collection and item types. Every field
    the core does not read is omitted. */
module Emby {

  /** Go's int32 and int64. */
  type int32 = x: int | -0x8000_0000 <= x < 0x8000_0000
  type int64 = x: int | -0x8000_0000_0000_0000 <= x < 0x8000_0000_0000_0000

  /** A role name other than the two the display data looks for. */
  type OtherRole = r: string | r != "Actor" && r != "Director" witness "Writer"

  /** The role of a person credited on an item. Emby's remaining roles (writer,
      producer, guest star, ...) are only ever compared against the two named
      ones, so each role name has exactly one value here. */
  datatype PersonType = Actor | Director | OtherPersonType(role: OtherRole)

  datatype BaseItemPerson = BaseItemPerson(name: string, personType: PersonType)

  /** A stream kind other than video and audio. */
  type OtherKind = k: string | k != "Video" && k != "Audio" witness "Subtitle"

  /** The kind of a stream inside a media source; each kind name has exactly
      one value here. */
  datatype MediaStreamType = VideoStream | AudioStream | OtherStreamType(kind: OtherKind)

  datatype MediaStream = MediaStream(streamType: MediaStreamType, codec: string)

  datatype MediaSourceInfo = MediaSourceInfo(mediaStreams: seq<MediaStream>)

  datatype NameLongIdPair = NameLongIdPair(name: string)

  /** One catalog item as delivered by the server. An absent field arrives as its
      zero value: the empty string, 0 or the empty sequence. */
  datatype BaseItemDto = BaseItemDto(
    name: string,
    originalTitle: string,
    id: string,
    seriesId: string,
    seasonId: string,
    itemType: string,
    collectionType: string,
    productionYear: int32,
    indexNumber: int32,
    runTimeTicks: int64,
    width: int32,
    height: int32,
    container: string,
    path: string,
    genres: seq<string>,
    studios: seq<NameLongIdPair>,
    people: seq<BaseItemPerson>,
    mediaSources: seq<MediaSourceInfo>)

  datatype UserDto = UserDto(name: string, id: string)

  // Supported collection types
  const CollectionMovies := "movies"
  const CollectionTVShows := "tvshows"
  const CollectionHomeVideos := "homevideos"

  // Item types
  const VideoType := "Video"
  const SeriesType := "Series"
  const SeasonType := "Season"
  const EpisodeType := "Episode"
  const MovieType := "Movie"
}
