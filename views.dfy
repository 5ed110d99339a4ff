/**
 * The catalog views both pages compute while rendering: the listener's
 * album filter and track sort, and the admin page's album filter. All are
 * pure: they build new lists and leave their inputs alone.
 */
module Views {
  import opened Options
  import opened Text
  import opened Catalog
  import Lists
  import Sorting

  // ---------------------------------------------------------------------------
  // The listener page's filter

  /** The three filter fields of the listener page. */
  datatype ViewFilter = ViewFilter(albumName: string, genre: string, artist: string)

  /** Case-insensitive `field.includes(query)`. */
  predicate Mentions(field: string, query: string) {
    Includes(Lower(field), Lower(query))
  }

  /** Some artist of the album mentions `query`. */
  predicate SomeArtistMentions(album: Album, query: string) {
    Lists.Any(album.artists, (artist: string) => Mentions(artist, query))
  }

  /** The album name, the genre and some artist each mention their filter field. */
  predicate ViewMatches(f: ViewFilter, album: Album) {
    Mentions(album.albumName, f.albumName)
    && Mentions(album.genre, f.genre)
    && SomeArtistMentions(album, f.artist)
  }

  /**
   * `filterAlbumsAndTracks`: the albums that match, in catalog order; an
   * album is dropped only when it fails the filter.
   */
  function FilterAlbumsAndTracks(f: ViewFilter, albums: seq<Album>): (r: seq<Album>)
    ensures Lists.IsSubsequence(r, albums)
    ensures forall k :: 0 <= k < |r| ==> ViewMatches(f, r[k])
    ensures forall a :: a in albums && ViewMatches(f, a) ==> a in r
  {
    Lists.FilterIsSubsequence(albums, (a: Album) => ViewMatches(f, a));
    Lists.Filter(albums, (a: Album) => ViewMatches(f, a))
  }

  /** Every copy of a matching album is kept and every copy of another is dropped. */
  lemma FilterAlbumsAndTracksCount(f: ViewFilter, albums: seq<Album>, a: Album)
    ensures multiset(FilterAlbumsAndTracks(f, albums))[a]
            == if ViewMatches(f, a) then multiset(albums)[a] else 0
  {
    Lists.FilterCount(albums, (x: Album) => ViewMatches(f, x), a);
  }

  /** The empty text is part of any text. */
  lemma MentionsEmpty(field: string)
    ensures Mentions(field, "")
  {
    assert Lower("") == "";
    assert StartsWith(Lower(field), "");
  }

  /**
   * With all three filter fields empty, an album is shown exactly when it
   * has at least one artist (`some` over no artists is false).
   */
  lemma EmptyViewFilterKeepsAlbumsWithArtists(albums: seq<Album>)
    ensures FilterAlbumsAndTracks(ViewFilter("", "", ""), albums)
            == Lists.Filter(albums, (a: Album) => |a.artists| > 0)
  {
    var f := ViewFilter("", "", "");
    forall k | 0 <= k < |albums|
      ensures ViewMatches(f, albums[k]) == (|albums[k].artists| > 0)
    {
      var a := albums[k];
      MentionsEmpty(a.albumName);
      MentionsEmpty(a.genre);
      if |a.artists| > 0 {
        MentionsEmpty(a.artists[0]);
      }
    }
    Lists.FilterAgree(albums, (a: Album) => ViewMatches(f, a), (a: Album) => |a.artists| > 0);
  }

  // ---------------------------------------------------------------------------
  // The listener page's track sort

  /** The sort key selected by the `sortOption` text, if any. */
  function SortKeyOf(option: string): (key: Option<Sorting.SortKey>)
    ensures key == Some(Sorting.ByName) <==> option == "name"
    ensures key == Some(Sorting.ByLabel) <==> option == "artist"
    ensures key == Some(Sorting.ByDuration) <==> option == "duration"
    ensures key.None? <==> option != "name" && option != "artist" && option != "duration"
  {
    if option == "name" then Some(Sorting.ByName)
    else if option == "artist" then Some(Sorting.ByLabel)
    else if option == "duration" then Some(Sorting.ByDuration)
    else None
  }

  /**
   * `sortTracks`: for a known option, a sorted rearrangement of the tracks
   * (stable, see `Sorting.SortByIsStable`); for any other option the list as
   * given.
   */
  function SortTracks(option: string, tracks: seq<Track>): (r: seq<Track>)
    ensures multiset(r) == multiset(tracks) && |r| == |tracks|
    ensures SortKeyOf(option).Some? ==> Sorting.Sorted(SortKeyOf(option).value, r)
    ensures SortKeyOf(option).None? ==> r == tracks
  {
    assert |multiset(tracks)| == |tracks|;
    match SortKeyOf(option)
    case Some(key) => Sorting.SortBy(key, tracks)
    case None => tracks
  }

  // ---------------------------------------------------------------------------
  // The admin page's filter

  /** The four filter fields of the admin page. */
  datatype AdminFilter = AdminFilter(genre: string, albumName: string, artists: string, trackName: string)

  /** An empty criterion is skipped; a non-empty one must be mentioned. */
  predicate Criterion(query: string, field: string) {
    query == "" || Mentions(field, query)
  }

  /** The album's artists as the admin page shows them. */
  function ArtistLine(album: Album): string {
    Join(album.artists, ", ")
  }

  predicate SomeTrackMentions(album: Album, query: string) {
    Lists.Any(album.tracks, (t: Track) => Mentions(t.trackName, query))
  }

  predicate AdminMatches(f: AdminFilter, album: Album) {
    Criterion(f.genre, album.genre)
    && Criterion(f.albumName, album.albumName)
    && Criterion(f.artists, ArtistLine(album))
    && (f.trackName == "" || SomeTrackMentions(album, f.trackName))
  }

  /** `filterAlbums`: the albums meeting every non-empty criterion, in list order. */
  function FilterAlbums(f: AdminFilter, albums: seq<Album>): (r: seq<Album>)
    ensures Lists.IsSubsequence(r, albums)
    ensures forall k :: 0 <= k < |r| ==> AdminMatches(f, r[k])
    ensures forall a :: a in albums && AdminMatches(f, a) ==> a in r
  {
    Lists.FilterIsSubsequence(albums, (a: Album) => AdminMatches(f, a));
    Lists.Filter(albums, (a: Album) => AdminMatches(f, a))
  }

  /** With every criterion empty, the admin page lists every album. */
  lemma {:induction false} EmptyAdminFilterKeepsAll(albums: seq<Album>)
    ensures FilterAlbums(AdminFilter("", "", "", ""), albums) == albums
  {
    Lists.FilterKeepsAll(albums, (a: Album) => AdminMatches(AdminFilter("", "", "", ""), a));
  }

  /**
   * The admin artists criterion matches every album that the listener's
   * artist filter matches, since it searches the joined artist line.
   */
  lemma ArtistLineCoversEachArtist(album: Album, query: string)
    requires SomeArtistMentions(album, query)
    ensures Criterion(query, ArtistLine(album))
  {
    var k :| 0 <= k < |album.artists| && Mentions(album.artists[k], query);
    JoinContainsPiece(album.artists, ", ", k);
    var a, b :| ArtistLine(album) == a + album.artists[k] + b;
    LowerAppend(a + album.artists[k], b);
    LowerAppend(a, album.artists[k]);
    IncludesWithin(Lower(a), Lower(album.artists[k]), Lower(b), Lower(query));
  }

  /**
   * The converse fails: a query that spans the ", " between two names
   * matches the joined line although no single artist mentions it.
   */
  lemma ArtistLineMatchesAcrossNames()
    ensures var album := Album("x", "x", "", None, "", ["a", "b"], "", []);
            Criterion("a, b", ArtistLine(album)) && !SomeArtistMentions(album, "a, b")
  {
    var album := Album("x", "x", "", None, "", ["a", "b"], "", []);
    assert ArtistLine(album) == "a, b";
    assert Lower("a, b") == "a, b";
    assert StartsWith(Lower(ArtistLine(album)), Lower("a, b"));
    assert Lower("a") == "a" && Lower("b") == "b";
    assert !Includes("", "a, b");
    assert !Includes("a", "a, b");
    assert !Includes("b", "a, b");
  }
}
