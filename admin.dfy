/**
 * The admin page as a state machine over its album list, counters, form
 * and picked files. Every network exchange is a parameter: the album
 * list the fetch returns, and for a save the signed upload URLs handed
 * out and the status of the final request, or a failure somewhere on
 * the way.
 */
module Admin {
  import opened Options
  import opened Catalog
  import opened AdminCatalog

  /** The files picked for the form: the album art and the track files. */
  datatype SelectedFiles = SelectedFiles(albumArt: Option<LocalFile>, tracks: seq<LocalFile>)

  /**
   * The outcome of the uploads and the save request: the signed URL the
   * art went to, the signed URLs the track files went to (in order) and
   * the status of the album request; or a failure of any of those steps.
   */
  datatype Transfer =
    | TransferFailed
    | Transferred(artUploadUrl: string, trackUploadUrls: seq<string>, status: int)

  /** The album an upload adds, built from the form, the picked files and their upload URLs. */
  function UploadedAlbum(details: AlbumDetails, files: SelectedFiles, transfer: Transfer): (a: Album)
    requires details.artists.ArtistText? && transfer.Transferred?
    requires |transfer.trackUploadUrls| == |files.tracks|
    ensures a.albumId == AlbumIdFor(details) && a.albumName == details.albumName
    ensures a.albumArtUrl == StoredUrl(transfer.artUploadUrl)
    ensures a.albumYear == Text.ParseInt(details.albumYear)
    ensures a.artists == SplitArtists(details.artists.text)
    ensures a.tracks == TrackRecords(files.tracks, transfer.trackUploadUrls)
  {
    NewAlbum(details, transfer.artUploadUrl, SplitArtists(details.artists.text),
             TrackRecords(files.tracks, transfer.trackUploadUrls))
  }

  const UploadSucceeded := "Album metadata and files uploaded successfully!"
  const UploadFailed := "Upload failed."

  /**
   * The records pushed while the track files are uploaded, one per file:
   * the loop of the upload and update handlers.
   */
  method UploadTracks(chosen: seq<LocalFile>, signedUrls: seq<string>) returns (records: seq<Track>)
    requires |signedUrls| == |chosen|
    ensures records == TrackRecords(chosen, signedUrls)
  {
    records := [];
    var i := 0;
    while i < |chosen|
      invariant 0 <= i <= |chosen|
      invariant |records| == i
      invariant forall k :: 0 <= k < i ==> records[k] == UploadedTrack(chosen[k], signedUrls[k])
    {
      records := records + [UploadedTrack(chosen[i], signedUrls[i])];
      i := i + 1;
    }
  }

  class AdminDashboard {
    var albums: seq<Album>
    var stats: Stats
    var selectedAlbum: Option<Album>
    var albumDetails: AlbumDetails
    var files: SelectedFiles
    var uploadStatus: string

    /** A selected album's id is the one the form carries. */
    predicate Valid()
      reads this
    {
      selectedAlbum.Some? ==> albumDetails.albumId == Some(selectedAlbum.value.albumId)
    }

    /** The page before the fetch: nothing listed, counted, selected or picked. */
    constructor ()
      ensures Valid()
      ensures albums == [] && stats == Stats(0, 0) && selectedAlbum == None
      ensures albumDetails == AlbumDetails(None, "", "", "", ArtistText(""), "")
      ensures files == SelectedFiles(None, []) && uploadStatus == ""
    {
      albums := [];
      stats := Stats(0, 0);
      selectedAlbum := None;
      albumDetails := AlbumDetails(None, "", "", "", ArtistText(""), "");
      files := SelectedFiles(None, []);
      uploadStatus := "";
    }

    /**
     * The fetch on mount: on success the list is the response and the
     * counters are computed from it; on failure nothing changes.
     */
    method FetchAlbums(response: Option<seq<Album>>)
      modifies this`albums, this`stats
      ensures response.None? ==> albums == old(albums) && stats == old(stats)
      ensures response.Some? ==> albums == response.value && stats == InitialStats(albums)
      ensures response.Some? ==> StatsAgree(albums, stats)
    {
      if response.Some? {
        albums := response.value;
        stats := InitialStats(albums);
      }
    }

    /** Clicking an album selects it and fills the form from it. */
    method HandleAlbumClick(album: Album)
      modifies this`selectedAlbum, this`albumDetails
      ensures Valid()
      ensures selectedAlbum == Some(album) && albumDetails == DetailsOf(album)
    {
      selectedAlbum := Some(album);
      albumDetails := DetailsOf(album);
    }

    /** The "Add Album" button: drops the selection and empties the form. */
    method ResetForm()
      modifies this`selectedAlbum, this`albumDetails
      ensures Valid()
      ensures selectedAlbum == None && albumDetails == AlbumDetails(None, "", "", "", ArtistText(""), "")
    {
      selectedAlbum := None;
      albumDetails := AlbumDetails(None, "", "", "", ArtistText(""), "");
    }

    /**
     * Typing into a form field stores the text under that field; typing
     * into the artists field turns a loaded list into text.
     */
    method HandleInputChange(name: string, value: string)
      requires Valid()
      modifies this`albumDetails
      ensures Valid()
      ensures albumDetails.albumId == old(albumDetails).albumId
      ensures albumDetails == match name
        case "albumName" => old(albumDetails).(albumName := value)
        case "albumYear" => old(albumDetails).(albumYear := value)
        case "genre" => old(albumDetails).(genre := value)
        case "artists" => old(albumDetails).(artists := ArtistText(value))
        case "bandComposition" => old(albumDetails).(bandComposition := value)
        case _ => old(albumDetails)
    {
      match name {
        case "albumName" => albumDetails := albumDetails.(albumName := value);
        case "albumYear" => albumDetails := albumDetails.(albumYear := value);
        case "genre" => albumDetails := albumDetails.(genre := value);
        case "artists" => albumDetails := albumDetails.(artists := ArtistText(value));
        case "bandComposition" => albumDetails := albumDetails.(bandComposition := value);
        case _ =>
      }
    }

    /**
     * Picking files: art replaces the art (by nothing when none was
     * picked), track files are added after those already picked.
     */
    method HandleFileChange(name: string, chosen: seq<LocalFile>)
      modifies this`files
      ensures name == "albumArt" ==>
                files == old(files).(albumArt := if chosen == [] then None else Some(chosen[0]))
      ensures name == "tracks" ==> files == old(files).(tracks := old(files).tracks + chosen)
      ensures name != "albumArt" && name != "tracks" ==> files == old(files)
      ensures name == "tracks" ==> old(files).tracks <= files.tracks
    {
      if name == "albumArt" {
        files := files.(albumArt := if chosen == [] then None else Some(chosen[0]));
      } else if name == "tracks" {
        files := files.(tracks := files.tracks + chosen);
      }
    }

    /**
     * Uploading a new album. Without art or without track files nothing
     * changes. Otherwise, when every upload went through, the artists
     * field is text and the album request answered 200 or 201, the new
     * album is added at the end and counted; in every other case only
     * the status message changes, to the failure message.
     */
    method HandleFileUpload(transfer: Transfer) returns (done: bool)
      requires transfer.Transferred? ==> |transfer.trackUploadUrls| == |files.tracks|
      modifies this`albums, this`stats, this`uploadStatus
      ensures files.albumArt.None? || files.tracks == [] ==>
                !done && albums == old(albums) && stats == old(stats) && uploadStatus == old(uploadStatus)
      ensures done <==> files.albumArt.Some? && files.tracks != [] && transfer.Transferred?
                        && albumDetails.artists.ArtistText? && (transfer.status == 200 || transfer.status == 201)
      ensures done ==>
                var added := UploadedAlbum(albumDetails, files, transfer);
                albums == old(albums) + [added] && stats == StatsAfterUpload(old(stats), added)
                && uploadStatus == UploadSucceeded
      ensures files.albumArt.Some? && files.tracks != [] && !done ==>
                albums == old(albums) && stats == old(stats) && uploadStatus == UploadFailed
    {
      if files.albumArt.None? || files.tracks == [] {
        return false;
      }
      if transfer.TransferFailed? {
        uploadStatus := UploadFailed;
        return false;
      }
      var records := UploadTracks(files.tracks, transfer.trackUploadUrls);
      if albumDetails.artists.ArtistList? {
        // a loaded list has no `split`: the handler throws here
        uploadStatus := UploadFailed;
        return false;
      }
      var added := NewAlbum(albumDetails, transfer.artUploadUrl, SplitArtists(albumDetails.artists.text), records);
      if transfer.status == 200 || transfer.status == 201 {
        albums := albums + [added];
        stats := StatsAfterUpload(stats, added);
        uploadStatus := UploadSucceeded;
        done := true;
      } else {
        uploadStatus := UploadFailed;
        done := false;
      }
    }

    /**
     * Saving the selected album. Without a selection nothing changes.
     * The art URL is the new upload's when art was picked and the
     * album's own otherwise; the tracks are the new uploads when track
     * files were picked and the album's own otherwise. On a 200 or 204
     * answer every album with the selected id is replaced by the saved
     * one; the counters are never touched.
     */
    method HandleUpdateAlbum(transfer: Transfer) returns (done: bool)
      requires Valid()
      requires transfer.Transferred? && files.tracks != [] ==>
                 |transfer.trackUploadUrls| == |files.tracks|
      modifies this`albums
      ensures done <==> selectedAlbum.Some? && transfer.Transferred? && (transfer.status == 200 || transfer.status == 204)
      ensures !done ==> albums == old(albums)
      ensures done ==>
                var album := selectedAlbum.value;
                var artUrl := if files.albumArt.Some? then StoredUrl(transfer.artUploadUrl)
                              else album.albumArtUrl;
                var tracks := if files.tracks != [] then TrackRecords(files.tracks, transfer.trackUploadUrls)
                              else album.tracks;
                albums == AlbumsUpdated(old(albums), album.albumId, UpdatedAlbum(albumDetails, artUrl, tracks))
    {
      if selectedAlbum.None? || transfer.TransferFailed? {
        return false;
      }
      var album := selectedAlbum.value;
      var artUrl := album.albumArtUrl;
      if files.albumArt.Some? {
        artUrl := StoredUrl(transfer.artUploadUrl);
      }
      var tracks := album.tracks;
      if files.tracks != [] {
        tracks := UploadTracks(files.tracks, transfer.trackUploadUrls);
      }
      var saved := UpdatedAlbum(albumDetails, artUrl, tracks);
      if transfer.status == 200 || transfer.status == 204 {
        albums := AlbumsUpdated(albums, album.albumId, saved);
        done := true;
      } else {
        done := false;
      }
    }

    /**
     * Deleting an album once the admin confirms and the delete request
     * succeeds: every album with the id leaves the list, the album
     * counter drops by one and the track counter by the first match's
     * tracks. Otherwise nothing changes.
     */
    method HandleDeleteAlbum(albumId: string, confirmed: bool, deleted: bool)
      requires confirmed && deleted ==> HasAlbumId(albums, albumId)
      modifies this`albums, this`stats
      ensures !(confirmed && deleted) ==> albums == old(albums) && stats == old(stats)
      ensures confirmed && deleted ==>
                albums == AlbumsWithout(old(albums), albumId)
                && stats == StatsAfterDelete(old(stats), old(albums), albumId)
    {
      if confirmed && deleted {
        stats := StatsAfterDelete(stats, albums, albumId);
        albums := AlbumsWithout(albums, albumId);
      }
    }
  }

  /**
   * After a fetch, uploading a new album under a name whose derived id
   * the list does not hold, then deleting that id, brings list and
   * counters back to the fetched ones.
   */
  method UploadThenDelete(fetched: seq<Album>, name: string, art: LocalFile, track: LocalFile,
                          artUrl: string, trackUrl: string)
    returns (albumsBack: bool, statsBack: bool)
    requires !HasAlbumId(fetched, DerivedAlbumId(name))
    ensures albumsBack && statsBack
  {
    var page := new AdminDashboard();
    page.FetchAlbums(Some(fetched));
    page.HandleInputChange("albumName", name);
    page.HandleFileChange("albumArt", [art]);
    page.HandleFileChange("tracks", [track]);
    var uploaded := page.HandleFileUpload(Transferred(artUrl, [trackUrl], 201));
    var added := UploadedAlbum(page.albumDetails, page.files, Transferred(artUrl, [trackUrl], 201));
    assert added.albumId == DerivedAlbumId(name);
    assert page.albums == fetched + [added] && page.stats == StatsAfterUpload(InitialStats(fetched), added);
    UploadThenDeleteRestores(fetched, InitialStats(fetched), added);
    page.HandleDeleteAlbum(added.albumId, true, true);
    albumsBack := page.albums == fetched;
    statsBack := page.stats == InitialStats(fetched);
  }
}
