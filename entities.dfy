/** The entity records the music API builds; fields are in the order of the constructor calls. */
module Entities {
  import opened Js

  /** One entry of a chart snapshot: `new ChartPosition(position, songId, songName, artistName)`. */
  datatype ChartPosition = ChartPosition(position: Field, songId: Field, songName: Field, artistName: Field)

  /** A song's metadata; `id` is the identifier the caller asked for. */
  datatype Song = Song(id: string, name: Field, artistName: Field, albumName: Field,
                       albumReleaseDate: Field, duration: Field, url: Field, imageUrl: Field)

  /** One historical chart appearance of a song. */
  datatype SongRank = SongRank(datePublished: Field, position: Field)

  /** One media object related to a song. */
  datatype MediaItem = MediaItem(url: Field, name: Field, thumbnail: Field)
}
