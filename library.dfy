/**
 * The listener's library: purchased albums, identified by `albumId`, and
 * liked songs, identified by `trackUrl`, and the two local-storage entries
 * that hold them.
 */
module Library {
  import opened Catalog
  import Lists

  /** A value held in local storage: one of the two lists the page saves. */
  datatype Stored = StoredAlbums(albums: seq<Album>) | StoredTracks(tracks: seq<Track>)

  const PurchasedKey: string := "purchasedAlbums"
  const LikedKey: string := "likedSongs"

  /** The entry under each library key holds the kind of list saved there. */
  predicate WellFormedStorage(storage: map<string, Stored>) {
    (PurchasedKey in storage ==> storage[PurchasedKey].StoredAlbums?)
    && (LikedKey in storage ==> storage[LikedKey].StoredTracks?)
  }

  // ---------------------------------------------------------------------------
  // Purchases

  /** The purchased albums that carry `albumId`. */
  function CopiesOf(purchased: seq<Album>, albumId: string): nat {
    |Lists.Filter(purchased, (a: Album) => a.albumId == albumId)|
  }

  /** Only a purchased id has copies in the list. */
  lemma CopiesOnlyIfPurchased(purchased: seq<Album>, albumId: string)
    ensures !HasAlbumId(purchased, albumId) ==> CopiesOf(purchased, albumId) == 0
  {
    var r := Lists.Filter(purchased, (a: Album) => a.albumId == albumId);
    if r != [] {
      var k :| 0 <= k < |purchased| && purchased[k] == r[0];
      assert purchased[k].albumId == albumId;
    }
  }

  /**
   * The list after confirming a purchase (`confirmPurchase`): the album is
   * added at the end. Since the purchase dialog only opens for an album not
   * yet purchased, the list then holds exactly one copy of it.
   */
  function AfterPurchase(purchased: seq<Album>, album: Album): (r: seq<Album>)
    ensures |r| == |purchased| + 1 && r[..|purchased|] == purchased && r[|purchased|] == album
    ensures HasAlbumId(r, album.albumId)
    ensures !HasAlbumId(purchased, album.albumId) ==> CopiesOf(r, album.albumId) == 1
  {
    var r := purchased + [album];
    assert r[|purchased|] == album;
    Lists.FilterAppend(purchased, [album], (a: Album) => a.albumId == album.albumId);
    CopiesOnlyIfPurchased(purchased, album.albumId);
    r
  }

  // ---------------------------------------------------------------------------
  // Liked songs

  /** `likedSongs.some(song => song.trackUrl === url)`: some liked song has the URL `url`. */
  function IsLiked(liked: seq<Track>, url: string): (b: bool)
    ensures b <==> exists k :: 0 <= k < |liked| && liked[k].trackUrl == url
  {
    Lists.Any(liked, (t: Track) => t.trackUrl == url)
  }

  /** The liked songs whose URL is not `url`, in their order. */
  function WithoutUrl(liked: seq<Track>, url: string): (r: seq<Track>)
    ensures Lists.IsSubsequence(r, liked)
    ensures forall t :: t in r <==> t in liked && t.trackUrl != url
  {
    Lists.FilterIsSubsequence(liked, (t: Track) => t.trackUrl != url);
    Lists.Filter(liked, (t: Track) => t.trackUrl != url)
  }

  /**
   * `toggleLikeSong`: a liked URL loses every entry carrying it; any other
   * track is appended. The liked state of the toggled URL flips and that of
   * every other URL stays as it was.
   */
  function LikeToggled(liked: seq<Track>, track: Track): (r: seq<Track>)
    ensures !IsLiked(liked, track.trackUrl) ==> r == liked + [track]
    ensures IsLiked(liked, track.trackUrl) ==> r == WithoutUrl(liked, track.trackUrl)
    ensures IsLiked(r, track.trackUrl) == !IsLiked(liked, track.trackUrl)
    ensures forall url :: url != track.trackUrl ==> IsLiked(r, url) == IsLiked(liked, url)
  {
    if IsLiked(liked, track.trackUrl) then
      var r := WithoutUrl(liked, track.trackUrl);
      assert !IsLiked(r, track.trackUrl);
      forall url | url != track.trackUrl
        ensures IsLiked(r, url) == IsLiked(liked, url)
      {
        if IsLiked(liked, url) {
          var k :| 0 <= k < |liked| && liked[k].trackUrl == url;
          assert liked[k] in r;
          var j :| 0 <= j < |r| && r[j] == liked[k];
        }
        if IsLiked(r, url) {
          var j :| 0 <= j < |r| && r[j].trackUrl == url;
          assert r[j] in liked;
          var k :| 0 <= k < |liked| && liked[k] == r[j];
        }
      }
      r
    else
      var r := liked + [track];
      assert r[|liked|] == track;
      forall url | url != track.trackUrl
        ensures IsLiked(r, url) == IsLiked(liked, url)
      {
        if IsLiked(liked, url) {
          var k :| 0 <= k < |liked| && liked[k].trackUrl == url;
          assert r[k] == liked[k];
        }
      }
      r
  }

  /** Toggling the same track twice restores the liked state of every URL. */
  lemma LikeToggledTwice(liked: seq<Track>, track: Track, url: string)
    ensures IsLiked(LikeToggled(LikeToggled(liked, track), track), url) == IsLiked(liked, url)
  {
  }
}
