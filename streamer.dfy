/**
 * The listener page's state and handlers: the player (current album and
 * track index, the audio element, play/pause, shuffle and repeat) and the
 * library (purchases and liked songs, saved to local storage).
 */
module Streamer {
  import opened Options
  import opened Catalog
  import opened Library
  import opened Playback
  import Views
  import Sorting

  /** What the footer shows of the track playing. */
  datatype NowPlaying = NowPlaying(trackUrl: string, trackName: string)

  /** The arguments of a `playTrack` call; the `ended` listener replays them on repeat. */
  datatype PlayRequest = PlayRequest(trackUrl: string, index: nat, album: Option<Album>, trackName: string)

  /** An `Audio` element: its source, whether it is playing, and the call that created it. */
  datatype AudioElement = AudioElement(src: string, playing: bool, origin: PlayRequest)

  /** A `most_played` report posted to the catalog service. */
  datatype PlayReport = PlayReport(albumId: string, trackName: string)

  /** A request whose album, when it has one, holds a track at its index. */
  predicate ValidRequest(r: PlayRequest) {
    r.album.Some? ==> r.index < |r.album.value.tracks|
  }

  /** The request that plays track `j` of `album`, as the player buttons make it. */
  function TrackRequest(album: Album, j: nat): (r: PlayRequest)
    requires j < |album.tracks|
    ensures ValidRequest(r) && r.index == j && r.album == Some(album)
  {
    PlayRequest(album.tracks[j].trackUrl, j, Some(album), album.tracks[j].trackName)
  }

  /** The audio element a new play call retires: the old one, now paused. */
  function Retired(audio: Option<AudioElement>): seq<AudioElement> {
    if audio.Some? then [audio.value.(playing := false)] else []
  }

  /** The report a play call posts: none when the track comes without an album. */
  function Reported(r: PlayRequest): seq<PlayReport> {
    if r.album.Some? then [PlayReport(r.album.value.albumId, r.trackName)] else []
  }

  // ---------------------------------------------------------------------------
  // A click on a row of the selected album's track list

  /** The request's index names, in its album, the very track it plays. */
  predicate PointsAtItsTrack(r: PlayRequest) {
    r.album.Some? ==> r.index < |r.album.value.tracks| && r.album.value.tracks[r.index].trackUrl == r.trackUrl
  }

  /**
   * The request a click on row `row` of the track list makes as written:
   * the row's track, with the row number of the sorted list passed as its
   * index in the album.
   */
  function RowRequestAsWritten(album: Album, option: string, row: nat): (r: PlayRequest)
    requires row < |album.tracks|
    ensures ValidRequest(r) && r.album == Some(album) && r.index == row
  {
    var shown := Views.SortTracks(option, album.tracks);
    PlayRequest(shown[row].trackUrl, row, Some(album), shown[row].trackName)
  }

  /**
   * With the list sorted by name, clicking the first row of an album whose
   * tracks are "b" then "a" plays "a" under index 0, so "next" (index 1)
   * plays "a" again instead of moving on.
   */
  lemma SortedRowMisleadsNext()
    ensures var b := Track("b", "Sony Music", "u-b", None);
            var a := Track("a", "Sony Music", "u-a", None);
            var album := Album("x", "X", "", None, "", [], "", [b, a]);
            var r := RowRequestAsWritten(album, "name", 0);
            && r.trackUrl == "u-a"
            && !PointsAtItsTrack(r)
            && NextChoice(false, r.index, 2, 0) == PlayAt(1)
            && album.tracks[1].trackUrl == r.trackUrl
  {
    var b := Track("b", "Sony Music", "u-b", None);
    var a := Track("a", "Sony Music", "u-a", None);
    var album := Album("x", "X", "", None, "", [], "", [b, a]);
    assert !Sorting.KeyLeq(Sorting.ByName, b, a) by {
      assert "b"[0] == 'b' && "a"[0] == 'a';
    }
    assert [b, a][1..] == [a] && [a][1..] == [];
    assert Sorting.SortBy(Sorting.ByName, [a]) == Sorting.Insert(Sorting.ByName, a, []) == [a];
    assert Sorting.Insert(Sorting.ByName, b, [a]) == [a] + Sorting.Insert(Sorting.ByName, b, []) == [a, b];
    assert Views.SortTracks("name", album.tracks) == [a, b];
    var r := RowRequestAsWritten(album, "name", 0);
    assert r.trackUrl == "u-a";
    assert album.tracks[0].trackUrl == "u-b";
  }

  /** The first position of `t` in `tracks`. */
  function PositionOf(tracks: seq<Track>, t: Track): (i: nat)
    requires t in tracks
    ensures i < |tracks| && tracks[i] == t
    ensures forall j :: 0 <= j < i ==> tracks[j] != t
  {
    if tracks[0] == t then 0 else 1 + PositionOf(tracks[1..], t)
  }

  /**
   * The request a click on row `row` should make: the row's track under
   * its position in the album, so that next, previous and the end of the
   * track move on from the track clicked. Without a sort the rows are the
   * album's positions and the row number is kept, so of two equal tracks
   * the one clicked is the one recorded.
   */
  function RowRequest(album: Album, option: string, row: nat): (r: PlayRequest)
    requires row < |album.tracks|
    ensures ValidRequest(r) && PointsAtItsTrack(r) && r.album == Some(album)
    ensures r.trackUrl == Views.SortTracks(option, album.tracks)[row].trackUrl
    ensures Views.SortKeyOf(option).None? ==> r.index == row
  {
    var shown := Views.SortTracks(option, album.tracks);
    if Views.SortKeyOf(option).None? then
      PlayRequest(shown[row].trackUrl, row, Some(album), shown[row].trackName)
    else
      assert shown[row] in multiset(album.tracks);
      var i := PositionOf(album.tracks, shown[row]);
      PlayRequest(shown[row].trackUrl, i, Some(album), shown[row].trackName)
  }

  /** Without a sort option the two requests coincide: rows are album positions. */
  lemma UnsortedRowsAgree(album: Album, option: string, row: nat)
    requires row < |album.tracks| && Views.SortKeyOf(option).None?
    ensures RowRequest(album, option, row) == RowRequestAsWritten(album, option, row)
  {
  }

  class DreamStreamer {
    // player
    var currentTrackIndex: Option<nat>
    var currentTrack: Option<NowPlaying>
    var currentTrackAlbum: Option<Album>
    var isPlaying: bool
    var audio: Option<AudioElement>
    /** Every audio element a later play call replaced, in order. */
    ghost var released: seq<AudioElement>
    var shuffle: bool
    var repeat: bool
    var playReports: seq<PlayReport>
    // library
    var purchasedAlbums: seq<Album>
    var likedSongs: seq<Track>
    var albumToPurchase: Option<Album>
    var showPurchaseModal: bool
    /** The browser's local storage. */
    var storage: map<string, Stored>

    /**
     * The current album and index are those of the call that created the
     * audio element, that index lies inside the album, and no replaced
     * element still plays: at most one track is audible.
     */
    ghost predicate Valid()
      reads this
    {
      && (audio.Some? ==> ValidRequest(audio.value.origin))
      && currentTrackAlbum == (if audio.Some? then audio.value.origin.album else None)
      && currentTrackIndex == (if audio.Some? then Some(audio.value.origin.index) else None)
      && (forall k :: 0 <= k < |released| ==> !released[k].playing)
    }

    /** The index of the current track lies inside the current album. */
    lemma CurrentIndexInAlbum()
      requires Valid() && currentTrackAlbum.Some?
      ensures currentTrackIndex.Some? && currentTrackIndex.value < |currentTrackAlbum.value.tracks|
    {
    }

    /** The player shows and plays what `r` asked for. */
    ghost predicate Playing(r: PlayRequest)
      reads this
    {
      && audio == Some(AudioElement(r.trackUrl, true, r))
      && currentTrackIndex == Some(r.index)
      && currentTrackAlbum == r.album
      && currentTrack == Some(NowPlaying(r.trackUrl, r.trackName))
      && isPlaying
    }

    /** `r` started after `audio0` was playing, with `released0` retired and `reports0` posted before. */
    ghost predicate StartedAfter(r: PlayRequest, audio0: Option<AudioElement>,
                                 released0: seq<AudioElement>, reports0: seq<PlayReport>)
      reads this
    {
      Playing(r) && released == released0 + Retired(audio0) && playReports == reports0 + Reported(r)
    }

    /**
     * Mounting the page: nothing plays, and the purchased albums and liked
     * songs are restored from local storage when saved there before.
     */
    constructor (stored: map<string, Stored>)
      requires WellFormedStorage(stored)
      ensures Valid() && storage == stored
      ensures purchasedAlbums == if PurchasedKey in stored then stored[PurchasedKey].albums else []
      ensures likedSongs == if LikedKey in stored then stored[LikedKey].tracks else []
      ensures audio == None && currentTrack == None && !isPlaying && released == [] && playReports == []
      ensures !shuffle && !repeat && albumToPurchase == None && !showPurchaseModal
    {
      currentTrackIndex := None;
      currentTrack := None;
      currentTrackAlbum := None;
      isPlaying := false;
      audio := None;
      released := [];
      shuffle := false;
      repeat := false;
      playReports := [];
      purchasedAlbums := if PurchasedKey in stored then stored[PurchasedKey].albums else [];
      likedSongs := if LikedKey in stored then stored[LikedKey].tracks else [];
      albumToPurchase := None;
      showPurchaseModal := false;
      storage := stored;
    }

    // -------------------------------------------------------------------------
    // Player

    /**
     * `playTrack`: pauses the previous audio element, starts a new one for
     * the given track, makes it current and reports the play when the track
     * comes with an album.
     */
    method PlayTrack(trackUrl: string, index: nat, album: Option<Album>, trackName: string)
      requires Valid()
      requires ValidRequest(PlayRequest(trackUrl, index, album, trackName))
      modifies this`audio, this`released, this`currentTrackIndex, this`currentTrack,
               this`currentTrackAlbum, this`isPlaying, this`playReports
      ensures Valid()
      ensures StartedAfter(PlayRequest(trackUrl, index, album, trackName),
                           old(audio), old(released), old(playReports))
    {
      if audio.Some? {
        released := released + [audio.value.(playing := false)];
      }
      var request := PlayRequest(trackUrl, index, album, trackName);
      audio := Some(AudioElement(trackUrl, true, request));
      currentTrackIndex := Some(index);
      currentTrack := Some(NowPlaying(trackUrl, trackName));
      currentTrackAlbum := album;
      isPlaying := true;
      if album.Some? {
        playReports := playReports + [PlayReport(album.value.albumId, trackName)];
      }
    }

    /** `togglePlayPause`: with an audio element, pauses it when playing and plays it otherwise. */
    method TogglePlayPause()
      requires Valid()
      modifies this`audio, this`isPlaying
      ensures Valid()
      ensures old(audio).None? ==> audio == None && isPlaying == old(isPlaying)
      ensures old(audio).Some? ==>
                audio == Some(old(audio).value.(playing := !old(isPlaying))) && isPlaying == !old(isPlaying)
    {
      if audio.Some? {
        audio := Some(audio.value.(playing := !isPlaying));
        isPlaying := !isPlaying;
      }
    }

    method ToggleShuffle()
      modifies this`shuffle
      ensures shuffle == !old(shuffle)
    {
      shuffle := !shuffle;
    }

    method ToggleRepeat()
      modifies this`repeat
      ensures repeat == !old(repeat)
    {
      repeat := !repeat;
    }

    /**
     * `playRandomTrack`: plays the track at the drawn index `rnd` of the
     * current album, which may be the current track; no album, no change.
     */
    method PlayRandomTrack(rnd: nat)
      requires Valid()
      requires currentTrackAlbum.Some? ==> rnd < |currentTrackAlbum.value.tracks|
      modifies this`audio, this`released, this`currentTrackIndex, this`currentTrack,
               this`currentTrackAlbum, this`isPlaying, this`playReports
      ensures Valid()
      ensures old(currentTrackAlbum).None? ==> unchanged(this)
      ensures old(currentTrackAlbum).Some? ==>
                StartedAfter(TrackRequest(old(currentTrackAlbum).value, rnd),
                             old(audio), old(released), old(playReports))
    {
      if currentTrackAlbum.Some? {
        var album := currentTrackAlbum.value;
        PlayTrack(album.tracks[rnd].trackUrl, rnd, Some(album), album.tracks[rnd].trackName);
      }
    }

    /**
     * The body of `playNextTrack` when its closure sees the shuffle flag as
     * `shuffleSeen`: carries out `NextChoice` on the current album.
     */
    method Advance(shuffleSeen: bool, rnd: nat)
      requires Valid()
      requires currentTrackAlbum.Some? ==> rnd < |currentTrackAlbum.value.tracks|
      modifies this`audio, this`released, this`currentTrackIndex, this`currentTrack,
               this`currentTrackAlbum, this`isPlaying, this`playReports
      ensures Valid()
      ensures old(currentTrackAlbum).None? ==> unchanged(this)
      ensures old(currentTrackAlbum).Some? ==>
                var album := old(currentTrackAlbum).value;
                var c := NextChoice(shuffleSeen, old(currentTrackIndex).value, |album.tracks|, rnd);
                && (c.PlayAt? ==> StartedAfter(TrackRequest(album, c.index),
                                               old(audio), old(released), old(playReports)))
                && (c.Halt? ==> !isPlaying && audio == old(audio) && released == old(released)
                                && currentTrackIndex == old(currentTrackIndex)
                                && currentTrackAlbum == old(currentTrackAlbum)
                                && currentTrack == old(currentTrack) && playReports == old(playReports))
    {
      if currentTrackAlbum.Some? {
        var album := currentTrackAlbum.value;
        var index := currentTrackIndex.value;
        if shuffleSeen {
          PlayRandomTrack(rnd);
        } else if index < |album.tracks| - 1 {
          PlayTrack(album.tracks[index + 1].trackUrl, index + 1, Some(album), album.tracks[index + 1].trackName);
        } else {
          isPlaying := false;
        }
      }
    }

    /** `playNextTrack`, as the "next" button calls it. */
    method PlayNextTrack(rnd: nat)
      requires Valid()
      requires currentTrackAlbum.Some? ==> rnd < |currentTrackAlbum.value.tracks|
      modifies this`audio, this`released, this`currentTrackIndex, this`currentTrack,
               this`currentTrackAlbum, this`isPlaying, this`playReports
      ensures Valid()
      ensures old(currentTrackAlbum).None? ==> unchanged(this)
      ensures old(currentTrackAlbum).Some? ==>
                var album := old(currentTrackAlbum).value;
                var c := NextChoice(old(shuffle), old(currentTrackIndex).value, |album.tracks|, rnd);
                && (c.PlayAt? ==> StartedAfter(TrackRequest(album, c.index),
                                               old(audio), old(released), old(playReports)))
                && (c.Halt? ==> !isPlaying && audio == old(audio) && released == old(released)
                                && currentTrackIndex == old(currentTrackIndex)
                                && currentTrackAlbum == old(currentTrackAlbum)
                                && currentTrack == old(currentTrack) && playReports == old(playReports))
    {
      Advance(shuffle, rnd);
    }

    /** `playPreviousTrack`: plays the track before the current one; on the first track, or with no album, nothing changes. */
    method PlayPreviousTrack()
      requires Valid()
      modifies this`audio, this`released, this`currentTrackIndex, this`currentTrack,
               this`currentTrackAlbum, this`isPlaying, this`playReports
      ensures Valid()
      ensures old(currentTrackAlbum).None? ==> unchanged(this)
      ensures old(currentTrackAlbum).Some? ==>
                var album := old(currentTrackAlbum).value;
                var c := PreviousChoice(old(currentTrackIndex).value);
                && (c.PlayAt? ==> StartedAfter(TrackRequest(album, c.index),
                                               old(audio), old(released), old(playReports)))
                && (c.Stay? ==> unchanged(this))
    {
      if currentTrackAlbum.Some? && currentTrackIndex.value > 0 {
        var album := currentTrackAlbum.value;
        var index := currentTrackIndex.value;
        PlayTrack(album.tracks[index - 1].trackUrl, index - 1, Some(album), album.tracks[index - 1].trackName);
      }
    }

    /**
     * The `ended` listener of the playing audio element, with the repeat
     * and shuffle flags its closure sees and the index `rnd` a shuffle would
     * draw. The element stops, then repeat replays the call that created
     * it, shuffle plays the drawn track, and otherwise the next-track rule
     * applies with shuffle off.
     */
    method OnTrackEnded(repeatSeen: bool, shuffleSeen: bool, rnd: nat)
      requires Valid()
      requires audio.Some? && audio.value.playing
      requires currentTrackAlbum.Some? ==> rnd < |currentTrackAlbum.value.tracks|
      modifies this`audio, this`released, this`currentTrackIndex, this`currentTrack,
               this`currentTrackAlbum, this`isPlaying, this`playReports
      ensures Valid()
      ensures var ended := Some(old(audio).value.(playing := false));
              var origin := old(audio).value.origin;
              && (repeatSeen ==> StartedAfter(origin, ended, old(released), old(playReports)))
              && (!repeatSeen && origin.album.None? ==>
                    audio == ended && released == old(released) && isPlaying == old(isPlaying)
                    && currentTrack == old(currentTrack) && playReports == old(playReports))
              && (origin.album.Some? ==>
                    var album := origin.album.value;
                    var c := EndedChoice(repeatSeen, shuffleSeen, origin.index, |album.tracks|, rnd);
                    && (c.PlayAt? ==> StartedAfter(TrackRequest(album, c.index),
                                                   ended, old(released), old(playReports)))
                    && (c.Halt? ==> !isPlaying && audio == ended && released == old(released)
                                    && currentTrack == old(currentTrack) && playReports == old(playReports)))
    {
      audio := Some(audio.value.(playing := false));
      var origin := audio.value.origin;
      if repeatSeen {
        PlayTrack(origin.trackUrl, origin.index, origin.album, origin.trackName);
      } else if shuffleSeen {
        PlayRandomTrack(rnd);
      } else {
        Advance(false, rnd);
      }
    }

    // -------------------------------------------------------------------------
    // Library

    /**
     * `handlePurchaseClick`: an album whose id is already purchased only
     * draws a warning; any other album opens the purchase dialog for it.
     */
    method HandlePurchaseClick(album: Album) returns (alreadyPurchased: bool)
      modifies this`albumToPurchase, this`showPurchaseModal
      ensures alreadyPurchased == HasAlbumId(purchasedAlbums, album.albumId)
      ensures alreadyPurchased ==> unchanged(this)
      ensures !alreadyPurchased ==> albumToPurchase == Some(album) && showPurchaseModal
    {
      alreadyPurchased := HasAlbumId(purchasedAlbums, album.albumId);
      if !alreadyPurchased {
        albumToPurchase := Some(album);
        showPurchaseModal := true;
      }
    }

    /**
     * `confirmPurchase`: with no album pending nothing happens; otherwise the
     * pending album is appended to the purchases, the new list is saved, and
     * the dialog closes.
     */
    method ConfirmPurchase()
      modifies this`purchasedAlbums, this`storage, this`showPurchaseModal
      ensures old(albumToPurchase).None? ==> unchanged(this)
      ensures old(albumToPurchase).Some? ==>
                && purchasedAlbums == AfterPurchase(old(purchasedAlbums), old(albumToPurchase).value)
                && storage == old(storage)[PurchasedKey := StoredAlbums(purchasedAlbums)]
                && !showPurchaseModal
    {
      if albumToPurchase.Some? {
        var updated := AfterPurchase(purchasedAlbums, albumToPurchase.value);
        purchasedAlbums := updated;
        storage := storage[PurchasedKey := StoredAlbums(updated)];
        showPurchaseModal := false;
      }
    }

    /** `cancelPurchase`: closes the dialog and leaves the purchases alone. */
    method CancelPurchase()
      modifies this`showPurchaseModal
      ensures !showPurchaseModal
    {
      showPurchaseModal := false;
    }

    /** `toggleLikeSong`: flips the liked state of the track's URL and saves the new list. */
    method ToggleLikeSong(track: Track) returns (nowLiked: bool)
      modifies this`likedSongs, this`storage
      ensures likedSongs == LikeToggled(old(likedSongs), track)
      ensures storage == old(storage)[LikedKey := StoredTracks(likedSongs)]
      ensures nowLiked == IsLiked(likedSongs, track.trackUrl) == !IsLiked(old(likedSongs), track.trackUrl)
    {
      nowLiked := !IsLiked(likedSongs, track.trackUrl);
      var updated := LikeToggled(likedSongs, track);
      likedSongs := updated;
      storage := storage[LikedKey := StoredTracks(updated)];
    }
  }

  // ---------------------------------------------------------------------------
  // Sessions that use the page as its buttons and the audio element would

  /**
   * Playing the first track of a three-track album with repeat and shuffle
   * off, then letting each track end: tracks 0, 1 and 2 play, and after the
   * third end the player stops (no wrap-around).
   */
  method PlayThroughAlbum(album: Album) returns (heard: seq<nat>, stillPlaying: bool)
    requires |album.tracks| == 3
    ensures heard == [0, 1, 2] && !stillPlaying
  {
    var page := new DreamStreamer(map[]);
    page.PlayTrack(album.tracks[0].trackUrl, 0, Some(album), album.tracks[0].trackName);
    heard := [page.currentTrackIndex.value];
    page.OnTrackEnded(false, false, 0);
    heard := heard + [page.currentTrackIndex.value];
    page.OnTrackEnded(false, false, 0);
    heard := heard + [page.currentTrackIndex.value];
    page.OnTrackEnded(false, false, 0);
    stillPlaying := page.isPlaying;
  }

  /**
   * Playing track `i` of an album on a fresh page, then pressing "next" with
   * shuffle off: the track after it plays, or the player stops on the
   * album's last track.
   */
  method PlayThenNext(album: Album, i: nat) returns (nextUrl: Option<string>, stillPlaying: bool)
    requires i < |album.tracks|
    ensures i + 1 < |album.tracks| ==> nextUrl == Some(album.tracks[i + 1].trackUrl) && stillPlaying
    ensures i + 1 == |album.tracks| ==> !stillPlaying
  {
    var page := new DreamStreamer(map[]);
    var r := TrackRequest(album, i);
    page.PlayTrack(r.trackUrl, r.index, r.album, r.trackName);
    assert page.currentTrackAlbum == Some(album) && page.currentTrackIndex == Some(i) && !page.shuffle;
    page.PlayNextTrack(0);
    if i + 1 < |album.tracks| {
      assert page.Playing(TrackRequest(album, i + 1));
    }
    nextUrl := if page.currentTrack.Some? then Some(page.currentTrack.value.trackUrl) else None;
    stillPlaying := page.isPlaying;
  }

  /**
   * Clicking a row of the (possibly sorted) track list with the corrected
   * request, then pressing "next" with shuffle off: the clicked track
   * plays, and "next" moves to the track after it in the album, or stops
   * on the album's last track.
   */
  method ClickRowThenNext(album: Album, option: string, row: nat)
    returns (clickedAt: nat, nextUrl: Option<string>, stillPlaying: bool)
    requires row < |album.tracks|
    ensures clickedAt < |album.tracks|
    ensures album.tracks[clickedAt].trackUrl == Views.SortTracks(option, album.tracks)[row].trackUrl
    ensures clickedAt + 1 < |album.tracks| ==>
              nextUrl == Some(album.tracks[clickedAt + 1].trackUrl) && stillPlaying
    ensures clickedAt + 1 == |album.tracks| ==> !stillPlaying
  {
    var r := RowRequest(album, option, row);
    clickedAt := r.index;
    nextUrl, stillPlaying := PlayThenNext(album, clickedAt);
  }

  /**
   * Buying an album, then clicking "buy" on it again: the second click is
   * turned away and the purchases hold exactly one copy of the album.
   */
  method PurchaseTwice(album: Album) returns (secondTurnedAway: bool, copies: nat)
    ensures secondTurnedAway && copies == 1
  {
    var page := new DreamStreamer(map[]);
    var first := page.HandlePurchaseClick(album);
    page.ConfirmPurchase();
    secondTurnedAway := page.HandlePurchaseClick(album);
    copies := CopiesOf(page.purchasedAlbums, album.albumId);
  }

  /** A purchase saved to local storage is restored when the page mounts again. */
  method RestoreAfterPurchase(album: Album) returns (restored: seq<Album>)
    ensures restored == [album]
  {
    var page := new DreamStreamer(map[]);
    var turnedAway := page.HandlePurchaseClick(album);
    page.ConfirmPurchase();
    var again := new DreamStreamer(page.storage);
    restored := again.purchasedAlbums;
  }

  /** Liking a song twice on a fresh page leaves it unliked, in memory and in storage. */
  method LikeTwice(track: Track) returns (liked: bool, stored: seq<Track>)
    ensures !liked && stored == []
  {
    var page := new DreamStreamer(map[]);
    var first := page.ToggleLikeSong(track);
    liked := page.ToggleLikeSong(track);
    stored := page.storage[LikedKey].tracks;
  }
}
