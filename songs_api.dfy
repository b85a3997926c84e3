/**
 * The data the client exchanges with the catalog API (frontend/src/api/songsApi.ts).
 * Only the types are modelled; the HTTP calls are parameters of the sagas.
 */
module SongsApi {
  import opened Wrappers

  /**
   * The client's view of a song. `id` is the store-assigned `_id`, absent for a
   * song that has not been saved yet. A text field the server did not send reads as "".
   */
  datatype Song = Song(id: Option<string>, title: string, artist: string, album: string, gener: string)

  /** The four editable text fields of a song. */
  datatype SongField = Title | Artist | Album | Gener

  function FieldOf(song: Song, field: SongField): string {
    match field
    case Title => song.title
    case Artist => song.artist
    case Album => song.album
    case Gener => song.gener
  }

  /** A song with one text field replaced: `{ ...song, [field]: value }`. */
  function WithField(song: Song, field: SongField, value: string): (r: Song)
    ensures FieldOf(r, field) == value
    ensures forall other :: other != field ==> FieldOf(r, other) == FieldOf(song, other)
    ensures r.id == song.id
  {
    match field
    case Title => song.(title := value)
    case Artist => song.(artist := value)
    case Album => song.(album := value)
    case Gener => song.(gener := value)
  }

  /** One `songsPerX` entry of the statistics payload. */
  datatype GroupView = GroupView(key: Option<string>, count: int)

  /** The statistics payload as the client receives it. */
  datatype StatsView = StatsView(
    totalSongs: int, totalArtists: int, totalAlbums: int, totalGenres: int,
    songsPerGenre: seq<GroupView>, songsPerArtist: seq<GroupView>, songsPerAlbum: seq<GroupView>)

  /** What an API call yields: the response data, or the error's `message`. */
  datatype ApiOutcome<T> = Succeeded(data: T) | Failed(message: string)
}
