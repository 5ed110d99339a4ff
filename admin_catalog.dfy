/**
 * The admin page's bookkeeping over the album list: the two counters it
 * shows, how add, update and delete change the list, and the values it
 * derives from the form (album id, artists, stored URLs, track records).
 */
module AdminCatalog {
  import opened Options
  import opened Text
  import opened Catalog
  import Lists

  // ---------------------------------------------------------------------------
  // Counters

  /** The counters shown on the admin page. */
  datatype Stats = Stats(totalAlbums: int, totalTracks: int)

  /** The number of tracks over all albums. */
  function TrackTotal(albums: seq<Album>): (n: nat)
    ensures forall k :: 0 <= k < |albums| ==> |albums[k].tracks| <= n
    ensures n == 0 <==> forall k :: 0 <= k < |albums| ==> albums[k].tracks == []
  {
    if albums == [] then 0
    else
      var n := |albums[0].tracks| + TrackTotal(albums[1..]);
      assert forall k :: 1 <= k < |albums| ==> albums[k] == albums[1..][k - 1];
      n
  }

  /** The counters describe the list: its length and its number of tracks. */
  predicate StatsAgree(albums: seq<Album>, stats: Stats) {
    stats.totalAlbums == |albums| && stats.totalTracks == TrackTotal(albums)
  }

  /** The counters computed when the album list is fetched. */
  function InitialStats(albums: seq<Album>): (s: Stats)
    ensures StatsAgree(albums, s)
  {
    Stats(|albums|, TrackTotal(albums))
  }

  lemma {:induction false} TrackTotalAppend(a: seq<Album>, b: seq<Album>)
    ensures TrackTotal(a + b) == TrackTotal(a) + TrackTotal(b)
  {
    if a != [] {
      assert (a + b)[1..] == a[1..] + b;
      TrackTotalAppend(a[1..], b);
    } else {
      assert a + b == b;
    }
  }

  // ---------------------------------------------------------------------------
  // Add

  /** The counters after an album is added: one more album, its tracks more tracks. */
  function StatsAfterUpload(stats: Stats, album: Album): (s: Stats)
    ensures s.totalAlbums - stats.totalAlbums == |[album]|
    ensures s.totalTracks - stats.totalTracks == TrackTotal([album])
  {
    Stats(stats.totalAlbums + 1, stats.totalTracks + |album.tracks|)
  }

  /** Adding an album at the end keeps the counters in agreement with the list. */
  lemma UploadKeepsStatsAgree(albums: seq<Album>, stats: Stats, album: Album)
    requires StatsAgree(albums, stats)
    ensures StatsAgree(albums + [album], StatsAfterUpload(stats, album))
  {
    TrackTotalAppend(albums, [album]);
    assert TrackTotal([album]) == |album.tracks| + TrackTotal([]);
  }

  // ---------------------------------------------------------------------------
  // Lookup by id

  /** No two albums of the list share an id. */
  predicate UniqueIds(albums: seq<Album>) {
    forall i, j :: 0 <= i < j < |albums| ==> albums[i].albumId != albums[j].albumId
  }

  /** `albums.find(a => a.albumId === albumId)`: the first album with that id. */
  function FirstWithId(albums: seq<Album>, albumId: string): (a: Album)
    requires HasAlbumId(albums, albumId)
    ensures a.albumId == albumId
    ensures exists k :: 0 <= k < |albums| && albums[k] == a
                        && forall j :: 0 <= j < k ==> albums[j].albumId != albumId
  {
    if albums[0].albumId == albumId then albums[0]
    else
      assert HasAlbumId(albums[1..], albumId) by {
        var k :| 0 <= k < |albums| && albums[k].albumId == albumId;
        assert albums[1..][k - 1] == albums[k];
      }
      var a := FirstWithId(albums[1..], albumId);
      var k :| 0 <= k < |albums[1..]| && albums[1..][k] == a
               && forall j :: 0 <= j < k ==> albums[1..][j].albumId != albumId;
      assert albums[k + 1] == a;
      assert forall j :: 1 <= j < k + 1 ==> albums[j] == albums[1..][j - 1];
      a
  }

  // ---------------------------------------------------------------------------
  // Delete

  /** The list after a delete: every album with the id removed, the rest in order. */
  function AlbumsWithout(albums: seq<Album>, albumId: string): (r: seq<Album>)
    ensures Lists.IsSubsequence(r, albums)
    ensures !HasAlbumId(r, albumId)
    ensures forall k :: 0 <= k < |albums| && albums[k].albumId != albumId ==> albums[k] in r
  {
    Lists.FilterIsSubsequence(albums, (a: Album) => a.albumId != albumId);
    Lists.Filter(albums, (a: Album) => a.albumId != albumId)
  }

  /** The counters after a delete: one album fewer, and the first match's tracks fewer. */
  function StatsAfterDelete(stats: Stats, albums: seq<Album>, albumId: string): (s: Stats)
    requires HasAlbumId(albums, albumId)
    ensures UniqueIds(albums) ==>
              && stats.totalAlbums - s.totalAlbums == |albums| - |AlbumsWithout(albums, albumId)|
              && stats.totalTracks - s.totalTracks == TrackTotal(albums) - TrackTotal(AlbumsWithout(albums, albumId))
  {
    var s := Stats(stats.totalAlbums - 1, stats.totalTracks - |FirstWithId(albums, albumId).tracks|);
    if UniqueIds(albums) then
      DeleteUnique(albums, albumId);
      s
    else
      s
  }

  /** With unique ids, deleting removes one album and exactly its tracks. */
  lemma {:induction false} DeleteUnique(albums: seq<Album>, albumId: string)
    requires UniqueIds(albums) && HasAlbumId(albums, albumId)
    ensures |AlbumsWithout(albums, albumId)| == |albums| - 1
    ensures TrackTotal(AlbumsWithout(albums, albumId))
            == TrackTotal(albums) - |FirstWithId(albums, albumId).tracks|
  {
    var p := (a: Album) => a.albumId != albumId;
    var tail := albums[1..];
    if albums[0].albumId == albumId {
      Lists.FilterKeepsAll(tail, p);
    } else {
      assert HasAlbumId(tail, albumId) by {
        var k :| 0 <= k < |albums| && albums[k].albumId == albumId;
        assert tail[k - 1] == albums[k];
      }
      DeleteUnique(tail, albumId);
    }
  }

  /** When album ids are unique, deleting keeps the counters in agreement with the list. */
  lemma DeleteKeepsStatsAgree(albums: seq<Album>, stats: Stats, albumId: string)
    requires UniqueIds(albums) && HasAlbumId(albums, albumId) && StatsAgree(albums, stats)
    ensures StatsAgree(AlbumsWithout(albums, albumId), StatsAfterDelete(stats, albums, albumId))
  {
    DeleteUnique(albums, albumId);
  }

  /**
   * Without unique ids the counters drift: two albums sharing an id are
   * both removed while the album counter drops by one.
   */
  lemma DuplicateIdsBreakDeleteStats()
    ensures var t := Track("t", "Sony Music", "u", None);
            var a := Album("x", "X", "", None, "", [], "", [t]);
            var albums := [a, a];
            StatsAgree(albums, InitialStats(albums))
            && !StatsAgree(AlbumsWithout(albums, "x"), StatsAfterDelete(InitialStats(albums), albums, "x"))
  {
    var t := Track("t", "Sony Music", "u", None);
    var a := Album("x", "X", "", None, "", [], "", [t]);
    var albums := [a, a];
    assert HasAlbumId(albums, "x");
    assert AlbumsWithout(albums, "x") == [];
  }

  /**
   * Adding an album whose id the list does not hold, then deleting that
   * id, gives back the list and the counters as they were.
   */
  lemma UploadThenDeleteRestores(albums: seq<Album>, stats: Stats, album: Album)
    requires !HasAlbumId(albums, album.albumId)
    ensures HasAlbumId(albums + [album], album.albumId)
    ensures AlbumsWithout(albums + [album], album.albumId) == albums
    ensures StatsAfterDelete(StatsAfterUpload(stats, album), albums + [album], album.albumId) == stats
  {
    var id := album.albumId;
    var grown := albums + [album];
    assert grown[|albums|] == album;
    var p := (a: Album) => a.albumId != id;
    Lists.FilterAppend(albums, [album], p);
    Lists.FilterKeepsAll(albums, p);
    assert Lists.Filter([album], p) == [];
    var first := FirstWithId(grown, id);
    var k :| 0 <= k < |grown| && grown[k] == first
             && forall j :: 0 <= j < k ==> grown[j].albumId != id;
    assert k == |albums|;
  }

  // ---------------------------------------------------------------------------
  // Update

  /** The list after an update: each album with the id replaced by `updated`, all else in place. */
  function AlbumsUpdated(albums: seq<Album>, albumId: string, updated: Album): (r: seq<Album>)
    ensures |r| == |albums|
    ensures forall k :: 0 <= k < |albums| ==>
              r[k] == if albums[k].albumId == albumId then updated else albums[k]
  {
    if albums == [] then []
    else
      var rest := AlbumsUpdated(albums[1..], albumId, updated);
      [if albums[0].albumId == albumId then updated else albums[0]] + rest
  }

  /** With unique ids, an update trades the first match's tracks for the new album's. */
  lemma {:induction false} UpdateTrackTotal(albums: seq<Album>, albumId: string, updated: Album)
    requires UniqueIds(albums) && HasAlbumId(albums, albumId)
    ensures TrackTotal(AlbumsUpdated(albums, albumId, updated))
            == TrackTotal(albums) - |FirstWithId(albums, albumId).tracks| + |updated.tracks|
  {
    if albums[0].albumId == albumId {
      UpdateAtHead(albums, albumId, updated);
    } else {
      var tail := albums[1..];
      assert HasAlbumId(tail, albumId) by {
        var k :| 0 <= k < |albums| && albums[k].albumId == albumId;
        assert tail[k - 1] == albums[k];
      }
      assert FirstWithId(albums, albumId) == FirstWithId(tail, albumId);
      UpdateTrackTotal(tail, albumId, updated);
      UpdateSkipsHead(albums, albumId, updated);
    }
  }

  /** An update whose id is the first album's, with unique ids, changes only that album. */
  lemma UpdateAtHead(albums: seq<Album>, albumId: string, updated: Album)
    requires UniqueIds(albums) && albums != [] && albums[0].albumId == albumId
    ensures TrackTotal(AlbumsUpdated(albums, albumId, updated))
            == TrackTotal(albums) - |albums[0].tracks| + |updated.tracks|
  {
    var tail := albums[1..];
    var r := AlbumsUpdated(albums, albumId, updated);
    UpdateMissesAbsentId(tail, albumId, updated);
    assert r == [updated] + tail;
  }

  /** An update whose id is not the first album's keeps that album and updates the rest. */
  lemma UpdateSkipsHead(albums: seq<Album>, albumId: string, updated: Album)
    requires albums != [] && albums[0].albumId != albumId
    ensures TrackTotal(AlbumsUpdated(albums, albumId, updated))
            == |albums[0].tracks| + TrackTotal(AlbumsUpdated(albums[1..], albumId, updated))
  {
    var r := AlbumsUpdated(albums, albumId, updated);
    assert r == [albums[0]] + AlbumsUpdated(albums[1..], albumId, updated);
  }

  /** An update for an id no album carries leaves the list as it is. */
  lemma UpdateMissesAbsentId(albums: seq<Album>, albumId: string, updated: Album)
    requires forall k :: 0 <= k < |albums| ==> albums[k].albumId != albumId
    ensures AlbumsUpdated(albums, albumId, updated) == albums
  {
  }

  /**
   * An update leaves the counters alone, so with unique ids they still
   * agree with the list exactly when the new album has as many tracks as
   * the one it replaces.
   */
  lemma UpdateKeepsStatsAgreeIff(albums: seq<Album>, stats: Stats, albumId: string, updated: Album)
    requires UniqueIds(albums) && HasAlbumId(albums, albumId) && StatsAgree(albums, stats)
    ensures StatsAgree(AlbumsUpdated(albums, albumId, updated), stats)
            <==> |updated.tracks| == |FirstWithId(albums, albumId).tracks|
  {
    UpdateTrackTotal(albums, albumId, updated);
  }

  // ---------------------------------------------------------------------------
  // Values derived from the form

  /** The text of the artists field, or the list it holds after an album was loaded into the form. */
  datatype ArtistsInput = ArtistText(text: string) | ArtistList(names: seq<string>)

  /** The album form; `albumId` is present only when an album was loaded into it. */
  datatype AlbumDetails = AlbumDetails(
    albumId: Option<string>,
    albumName: string,
    albumYear: string,
    genre: string,
    artists: ArtistsInput,
    bandComposition: string)

  /** A file picked in the browser. */
  datatype LocalFile = LocalFile(name: string, fileType: string)

  /** The id made from an album name: its white space removed, then lower-cased. */
  function DerivedAlbumId(albumName: string): (id: string)
    ensures NoWhitespace(id)
    ensures |id| <= |albumName|
    ensures NoWhitespace(albumName) ==> id == Lower(albumName)
  {
    LowerKeepsNoWhitespace(RemoveWhitespace(albumName));
    Lower(RemoveWhitespace(albumName))
  }

  /**
   * The id of a name made of two pieces is the two pieces' ids run together,
   * so a name and the same name with extra white space get the same id.
   */
  lemma DerivedAlbumIdAppend(a: string, b: string)
    ensures DerivedAlbumId(a + b) == DerivedAlbumId(a) + DerivedAlbumId(b)
  {
    RemoveWhitespaceAppend(a, b);
    LowerAppend(RemoveWhitespace(a), RemoveWhitespace(b));
  }

  /** A name of white space only gets the empty id. */
  lemma BlankNameGetsEmptyId(name: string)
    requires AllWhitespace(name)
    ensures DerivedAlbumId(name) == []
  {
    RemoveAllWhitespace(name);
  }

  /** The id of a new album: the form's own id when it has a non-empty one, else the derived id. */
  function AlbumIdFor(details: AlbumDetails): (id: string)
    ensures details.albumId.Some? && details.albumId.value != "" ==> id == details.albumId.value
    ensures details.albumId.None? || details.albumId.value == "" ==> id == DerivedAlbumId(details.albumName)
  {
    if details.albumId.Some? && details.albumId.value != "" then details.albumId.value
    else DerivedAlbumId(details.albumName)
  }

  /**
   * `text.split(',').map(artist => artist.trim())`: one name per comma plus
   * one, each without commas and without space at either end.
   */
  function SplitArtists(text: string): (names: seq<string>)
    ensures |names| == Occurrences(text, ',') + 1
    ensures forall k :: 0 <= k < |names| ==> ',' !in names[k]
    ensures forall k :: 0 <= k < |names| ==>
              names[k] == [] || (!IsWhitespace(names[k][0]) && !IsWhitespace(names[k][|names[k]| - 1]))
    ensures forall k :: 0 <= k < |names| ==> names[k] == Trim(Split(text, ',')[k])
  {
    var parts := Split(text, ',');
    forall k | 0 <= k < |parts| {
      TrimKeepsOut(parts[k], ',');
    }
    seq(|parts|, k requires 0 <= k < |parts| => Trim(parts[k]))
  }

  /** Trimming adds no character: one absent from the text is absent from its trim. */
  lemma TrimKeepsOut(s: string, c: char)
    requires c !in s
    ensures c !in Trim(s)
  {
    var r := Trim(s);
    var i := LeadingSpace(s);
    assert r == s[i..i + |r|];
    forall k | 0 <= k < |r|
      ensures r[k] != c
    {
      assert r[k] == s[i + k];
    }
  }

  /** The artists of an album saved from the form: a loaded list as is, a text split at commas. */
  function ArtistsOf(input: ArtistsInput): seq<string> {
    match input
    case ArtistList(names) => names
    case ArtistText(text) => SplitArtists(text)
  }

  /**
   * `signedUrl.split('?')[0]`: the URL a file is stored under, which is the
   * signed upload URL cut at its first '?'.
   */
  function StoredUrl(signedUrl: string): (url: string)
    ensures '?' !in url
    ensures StartsWith(signedUrl, url)
    ensures |url| < |signedUrl| ==> signedUrl[|url|] == '?'
  {
    Split(signedUrl, '?')[0]
  }

  /** The record kept for an uploaded track file. */
  function UploadedTrack(file: LocalFile, signedUrl: string): (t: Track)
    ensures t.trackName == file.name && t.trackLabel == "Sony Music" && t.duration == None
    ensures t.trackUrl == StoredUrl(signedUrl)
  {
    Track(file.name, "Sony Music", StoredUrl(signedUrl), None)
  }

  /** The records of uploaded track files, one per file, in the order picked. */
  function TrackRecords(files: seq<LocalFile>, signedUrls: seq<string>): (records: seq<Track>)
    requires |signedUrls| == |files|
    ensures |records| == |files|
    ensures forall k :: 0 <= k < |files| ==>
              records[k].trackName == files[k].name && records[k].trackLabel == "Sony Music"
              && records[k].trackUrl == StoredUrl(signedUrls[k]) && records[k].duration == None
  {
    seq(|files|, k requires 0 <= k < |files| => UploadedTrack(files[k], signedUrls[k]))
  }

  /** The album a successful upload adds. */
  function NewAlbum(details: AlbumDetails, artSignedUrl: string, artists: seq<string>,
                    records: seq<Track>): (a: Album)
    ensures a.albumId == AlbumIdFor(details)
    ensures details.albumId.None? ==> a.albumId == DerivedAlbumId(details.albumName)
    ensures a.albumName == details.albumName && a.genre == details.genre
    ensures a.bandComposition == details.bandComposition
    ensures a.albumArtUrl == StoredUrl(artSignedUrl)
    ensures a.albumYear == ParseInt(details.albumYear)
    ensures a.artists == artists && a.tracks == records
  {
    Album(AlbumIdFor(details), details.albumName, StoredUrl(artSignedUrl), ParseInt(details.albumYear),
          details.genre, artists, details.bandComposition, records)
  }

  /** The text the year field holds for a loaded album: `String(year)`, or "null" for a missing year. */
  function YearText(year: Option<int>): string {
    match year
    case Some(n) => IntText(n)
    case None => "null"
  }

  /** Reading the year field back with `parseInt` gives the loaded year. */
  lemma YearTextParses(year: Option<int>)
    ensures ParseInt(YearText(year)) == year
  {
    match year
    case Some(n) => ParseIntText(n);
    case None =>
      assert !IsWhitespace('n') && LeadingSpace("null") == 0;
  }

  /** The form filled from an album clicked in the list. */
  function DetailsOf(album: Album): (d: AlbumDetails)
    ensures d.albumId == Some(album.albumId) && d.artists == ArtistList(album.artists)
    ensures ParseInt(d.albumYear) == album.albumYear
  {
    YearTextParses(album.albumYear);
    AlbumDetails(Some(album.albumId), album.albumName, YearText(album.albumYear), album.genre,
                 ArtistList(album.artists), album.bandComposition)
  }

  /** The album an update saves: the form's fields over the given art URL and tracks. */
  function UpdatedAlbum(details: AlbumDetails, albumArtUrl: string, tracks: seq<Track>): (a: Album)
    requires details.albumId.Some?
    ensures a.albumId == details.albumId.value && a.albumArtUrl == albumArtUrl && a.tracks == tracks
    ensures a.artists == ArtistsOf(details.artists) && a.albumYear == ParseInt(details.albumYear)
  {
    Album(details.albumId.value, details.albumName, albumArtUrl, ParseInt(details.albumYear),
          details.genre, ArtistsOf(details.artists), details.bandComposition, tracks)
  }

  /** Saving a loaded form unedited, with the album's own art URL and tracks, gives the album back. */
  lemma UnchangedFormSavesSameAlbum(album: Album)
    ensures UpdatedAlbum(DetailsOf(album), album.albumArtUrl, album.tracks) == album
  {
  }
}
