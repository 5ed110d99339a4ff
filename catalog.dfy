/** The catalog records both pages share: an album and the tracks it owns. */
module Catalog {
  import opened Options
  import Lists

  /**
   * A track of an album. `duration` is in whole seconds (see README) and
   * absent on the records the admin page creates.
   */
  datatype Track = Track(trackName: string, trackLabel: string, trackUrl: string, duration: Option<int>)

  /**
   * An album as the catalog service returns it. `albumYear` is `None` where
   * the source holds `NaN`; the order of `tracks` is the playing order.
   */
  datatype Album = Album(
    albumId: string,
    albumName: string,
    albumArtUrl: string,
    albumYear: Option<int>,
    genre: string,
    artists: seq<string>,
    bandComposition: string,
    tracks: seq<Track>)

  /**
   * `albums.some(a => a.albumId === albumId)`: the test both pages use to
   * find an album by id, among the purchases or in the admin list.
   */
  function HasAlbumId(albums: seq<Album>, albumId: string): (b: bool)
    ensures b <==> exists k :: 0 <= k < |albums| && albums[k].albumId == albumId
  {
    Lists.Any(albums, (a: Album) => a.albumId == albumId)
  }
}
