# DreamStreamer in Dafny

A model of the two pages of the DreamStreamer music service, with proofs
of what their handlers promise.

- **Listener page** (`DreamStreamer.jsx`).
  - The player: the current album and track index, the single audio element, play/pause, shuffle and repeat, and next, previous, random and end-of-track.
  - The library: purchased albums and liked songs, kept in the browser's local storage.
  - The catalog views: the album filter and the track sort.
- **Admin page** (`AdminDashboard.jsx`).
  - The album list and its `{totalAlbums, totalTracks}` counters.
  - How the list and counters change when an album is uploaded, updated or deleted.
  - The admin album filter and the file picker.
  - What a save derives from the form: the album id, the artist list, stored URLs and the track records.

Modules:

| module | what it holds |
|---|---|
| `Options` | the optional value that stands for `null`/`undefined` |
| `Text` | the JavaScript string operations the code uses, over `seq<char>`: `toLowerCase`, `includes`, `split`, `join`, `trim`, `replace(/\s/g, '')`, `parseInt` and `String(n)` |
| `Lists` | `filter` and `some`, with their contracts |
| `Catalog` | the `Track` and `Album` records and the test for an album id in a list |
| `Sorting` | a stable sort of tracks by name, label or duration |
| `Views` | `filterAlbumsAndTracks` and `sortTracks` (listener), `filterAlbums` (admin) |
| `Library` | purchase and like-toggle list updates and the storage keys |
| `Playback` | the next, previous and end-of-track choice rules, and runs of several track ends |
| `Streamer` | the listener page as the class `DreamStreamer`, plus sessions that drive it |
| `AdminCatalog` | the admin bookkeeping as pure functions, and the derivations from the form |
| `Admin` | the admin page as the class `AdminDashboard`, plus a session that drives it |

The page state is written as class fields; each handler is a method with a `modifies` frame naming the fields it sets.

Inputs that come from outside the program are parameters:
- the album list a fetch returns;
- the signed upload URLs and the status of a save (`Admin.Transfer`);
- whether a delete was confirmed and went through;
- the index `Math.random` draws;
- the repeat and shuffle flags the `ended` listener sees.

Local storage is a field `storage: map<string, Stored>`.

A ghost field `released` records every audio element a new play call replaced. The player's invariant `Valid()` says:
- none of those elements still plays;
- the current album and index are those of the call that made the playing element.

## Model

| member | source | states |
|---|---|---|
| Text.IncludesAt | spotify-clone/src/components/DreamStreamer/DreamStreamer.jsx:290-292 | `includes` holds exactly when the query occurs at some position of the text |
| Text.IncludesWithin | spotify-clone/src/pages/AdminDashboard.jsx:46 | text found inside a piece is found inside any text around that piece |
| Text.Includes | spotify-clone/src/pages/AdminDashboard.jsx:46 | the empty query is found in every text, and a query found is no longer than the text (`IncludesAt` gives the exact condition) |
| Text.Lower | spotify-clone/src/components/DreamStreamer/DreamStreamer.jsx:290-292 | `toLowerCase` keeps the length, turns each upper-case letter into its lower-case letter and leaves every other character as it is |
| Text.LowerKeepsNoWhitespace | spotify-clone/src/pages/AdminDashboard.jsx:134 | lower-casing a text without white space gives a text without white space |
| Text.Split | spotify-clone/src/pages/AdminDashboard.jsx:131 | `split` on one character gives one piece more than the character's occurrences, no piece contains it, and the first piece is exactly the text before its first occurrence |
| Text.Join | spotify-clone/src/pages/AdminDashboard.jsx:46 | a join of n pieces is as long as the pieces plus n-1 separators and starts with the first piece; no pieces join to the empty text |
| Text.JoinSplit | spotify-clone/src/pages/AdminDashboard.jsx:131 | joining the pieces of a split with the same separator gives the text back |
| Text.JoinContainsPiece | spotify-clone/src/pages/AdminDashboard.jsx:46 | each artist name occurs, as text, inside the `", "`-joined artist line |
| Text.LeadingSpace | spotify-clone/src/pages/AdminDashboard.jsx:131 | the count of leading characters skipped by `trim` (and by `parseInt`) covers exactly the white space before the first other character |
| Text.TextEnd | spotify-clone/src/pages/AdminDashboard.jsx:131 | the end `trim` cuts back to leaves only white space after it and a non-space just before it |
| Text.Trim | spotify-clone/src/pages/AdminDashboard.jsx:131 | `trim` returns the slice between a white-space prefix and a white-space suffix, itself neither starting nor ending with white space |
| Text.RemoveWhitespace | spotify-clone/src/pages/AdminDashboard.jsx:134 | the result has no white space, is no longer than the input, and equals the input when it had none |
| Text.RemoveWhitespaceAppend | spotify-clone/src/pages/AdminDashboard.jsx:134 | removing white space from a concatenation removes it from each part |
| Text.RemoveAllWhitespace | spotify-clone/src/pages/AdminDashboard.jsx:134 | a text of white space only leaves nothing behind |
| Text.ParseInt | spotify-clone/src/pages/AdminDashboard.jsx:137 | `parseInt` is NaN exactly when no digit follows the leading space and sign; the result is negative only after a minus sign |
| Text.DigitsParse | spotify-clone/src/pages/AdminDashboard.jsx:137 | a string of digits parses to the number it spells |
| Text.DecimalDigits | spotify-clone/src/pages/AdminDashboard.jsx:223 | the decimal text of a natural number is a non-empty digit string whose value is that number |
| Text.ParseIntText | spotify-clone/src/pages/AdminDashboard.jsx:223 | `parseInt(String(n))` is `n` for every integer `n` |
| Catalog.HasAlbumId | spotify-clone/src/components/DreamStreamer/DreamStreamer.jsx:89 | the `some` test on album ids holds exactly when some album of the list carries the id |
| Lists.Filter | spotify-clone/src/pages/AdminDashboard.jsx:255 | `filter` keeps exactly the elements that pass: every kept element passes and comes from the list, and every passing element is kept |
| Lists.Any | spotify-clone/src/components/DreamStreamer/DreamStreamer.jsx:89 | `some` holds exactly when some element passes |
| Lists.FilterIsSubsequence | spotify-clone/src/pages/AdminDashboard.jsx:42-49 | `filter` keeps the order of what it keeps |
| Lists.FilterCount | spotify-clone/src/components/DreamStreamer/DreamStreamer.jsx:288-293 | `filter` keeps every copy of a passing element and none of a failing one |
| Lists.FilterAppend | spotify-clone/src/pages/AdminDashboard.jsx:255 | filtering a concatenation filters each part |
| Lists.FilterKeepsAll | spotify-clone/src/pages/AdminDashboard.jsx:255 | a filter every element passes returns the list unchanged |
| Lists.FilterAgree | spotify-clone/src/components/DreamStreamer/DreamStreamer.jsx:288-293 | two tests that agree on every element filter alike |
| Sorting.StrLeqTotal | spotify-clone/src/components/DreamStreamer/DreamStreamer.jsx:298 | the string order used for `localeCompare` relates any two strings |
| Sorting.StrLeqTransitive | spotify-clone/src/components/DreamStreamer/DreamStreamer.jsx:298 | the string order is transitive |
| Sorting.KeyLeqTotal | spotify-clone/src/components/DreamStreamer/DreamStreamer.jsx:297-302 | the order by name, by label or by duration relates any two tracks |
| Sorting.KeyLeqTransitive | spotify-clone/src/components/DreamStreamer/DreamStreamer.jsx:297-302 | each of the three orders is transitive |
| Sorting.Insert | spotify-clone/src/components/DreamStreamer/DreamStreamer.jsx:297-302 | inserting adds exactly one copy of the track and changes nothing else in the multiset |
| Sorting.InsertSorted | spotify-clone/src/components/DreamStreamer/DreamStreamer.jsx:297-302 | inserting into a sorted list gives a sorted list |
| Sorting.SortBy | spotify-clone/src/components/DreamStreamer/DreamStreamer.jsx:297-302 | the sorted copy is a permutation of the tracks and is ordered by the key |
| Sorting.InsertKeepsRuns | spotify-clone/src/components/DreamStreamer/DreamStreamer.jsx:297-302 | inserting a track keeps the relative order of the tracks that share a key |
| Sorting.SortByIsStable | spotify-clone/src/components/DreamStreamer/DreamStreamer.jsx:297-302 | the sort is stable: tracks with equal keys keep their input order |
| Views.FilterAlbumsAndTracks | spotify-clone/src/components/DreamStreamer/DreamStreamer.jsx:287-294 | the visible albums are an order-preserving sub-list holding exactly the albums whose name, genre and some artist mention their filter fields, case-insensitively |
| Views.FilterAlbumsAndTracksCount | spotify-clone/src/components/DreamStreamer/DreamStreamer.jsx:287-294 | a matching album appears as often as in the catalog, a failing one not at all |
| Views.MentionsEmpty | spotify-clone/src/components/DreamStreamer/DreamStreamer.jsx:290-292 | an empty filter field matches every text |
| Views.SortKeyOf | spotify-clone/src/components/DreamStreamer/DreamStreamer.jsx:297-303 | "name" sorts by name, "artist" by the track label, "duration" by duration, and every other option by nothing |
| Views.EmptyViewFilterKeepsAlbumsWithArtists | spotify-clone/src/components/DreamStreamer/DreamStreamer.jsx:292 | with every filter field empty, exactly the albums with at least one artist stay visible: `some` over no artists is false |
| Views.SortTracks | spotify-clone/src/components/DreamStreamer/DreamStreamer.jsx:296-305 | for "name", "artist" (the label) and "duration" the result is a sorted permutation of the tracks; any other option returns the tracks as given |
| Views.FilterAlbums | spotify-clone/src/pages/AdminDashboard.jsx:41-50 | the admin list is an order-preserving sub-list of exactly the albums meeting every non-empty criterion (genre, name, the `", "`-joined artists, some track name) |
| Views.EmptyAdminFilterKeepsAll | spotify-clone/src/pages/AdminDashboard.jsx:43-48 | with every criterion empty, the admin list is the whole album list |
| Views.ArtistLineCoversEachArtist | spotify-clone/src/pages/AdminDashboard.jsx:46 | a query one artist mentions is found in the joined artist line |
| Views.ArtistLineMatchesAcrossNames | spotify-clone/src/pages/AdminDashboard.jsx:46 | the joined line also matches queries no single artist mentions: "a, b" matches "a, b" although neither "a" nor "b" does |
| Library.CopiesOnlyIfPurchased | spotify-clone/src/components/DreamStreamer/DreamStreamer.jsx:89 | an album id not found by `some` has no copy in the purchases |
| Library.IsLiked | spotify-clone/src/components/DreamStreamer/DreamStreamer.jsx:245 | the `some` test on liked songs holds exactly when some liked song has the URL |
| Library.AfterPurchase | spotify-clone/src/components/DreamStreamer/DreamStreamer.jsx:103 | a purchase appends exactly the album at the end (old list a prefix, length one more), the id is then purchased, and a first purchase leaves exactly one copy |
| Library.WithoutUrl | spotify-clone/src/components/DreamStreamer/DreamStreamer.jsx:249 | removing a liked song keeps exactly the entries with another URL, in their order, and drops every entry with that URL |
| Library.LikeToggled | spotify-clone/src/components/DreamStreamer/DreamStreamer.jsx:244-254 | a song not liked is appended at the end; a liked song's URL loses every entry, the others kept in order; the toggled URL's liked state flips and every other URL's stays |
| Library.LikeToggledTwice | spotify-clone/src/components/DreamStreamer/DreamStreamer.jsx:244-254 | toggling the same song twice restores every URL's liked state |
| Playback.NextChoice | spotify-clone/src/components/DreamStreamer/DreamStreamer.jsx:184-199 | "next" plays an index inside the album, and stops instead exactly when shuffle is off on the last track (no wrap-around) |
| Playback.PreviousChoice | spotify-clone/src/components/DreamStreamer/DreamStreamer.jsx:201-210 | "previous" stays exactly on the first track and otherwise plays an earlier index |
| Playback.EndedChoice | spotify-clone/src/components/DreamStreamer/DreamStreamer.jsx:150-158 | at a track's end, repeat replays exactly when on; otherwise an index inside the album plays, and playback stops exactly when neither repeat nor shuffle is on at the last track |
| Playback.AfterEnds | spotify-clone/src/components/DreamStreamer/DreamStreamer.jsx:150-158 | after any number of track ends the current index stays inside the album |
| Playback.RepeatHoldsTrack | spotify-clone/src/components/DreamStreamer/DreamStreamer.jsx:151-152 | with repeat on, the same track plays after any number of ends |
| Playback.SequentialEnds | spotify-clone/src/components/DreamStreamer/DreamStreamer.jsx:155-156 | with both flags off, n ends from track i reach track i+n, or stop on the last track |
| Playback.StoppedStays | spotify-clone/src/components/DreamStreamer/DreamStreamer.jsx:195-197 | once stopped, no further end moves the player |
| Playback.ShuffleEnds | spotify-clone/src/components/DreamStreamer/DreamStreamer.jsx:153-154 | with shuffle on and repeat off, the track playing is the last one drawn |
| Streamer.TrackRequest | spotify-clone/src/components/DreamStreamer/DreamStreamer.jsx:189-194 | the request the player buttons make for track j of an album is valid and names j and that album |
| Streamer.RowRequestAsWritten | spotify-clone/src/components/DreamStreamer/DreamStreamer.jsx:439-447 | a click on a row of the track list passes the row number as the index, whatever the sort |
| Streamer.SortedRowMisleadsNext | spotify-clone/src/components/DreamStreamer/DreamStreamer.jsx:439-447 | sorted by name, the first row of an album "b", "a" plays "a" under index 0, and "next" then plays "a" again |
| Streamer.RowRequest | spotify-clone/src/components/DreamStreamer/DreamStreamer.jsx:439-447 | the corrected click plays the row's track under its own position in the album; with no sort it keeps the row number |
| Streamer.PositionOf | spotify-clone/src/components/DreamStreamer/DreamStreamer.jsx:439-447 | the first position at which a track occurs in the album |
| Streamer.UnsortedRowsAgree | spotify-clone/src/components/DreamStreamer/DreamStreamer.jsx:439-447 | with no sort option the click as written and the corrected click coincide |
| Streamer.DreamStreamer.CurrentIndexInAlbum | spotify-clone/src/components/DreamStreamer/DreamStreamer.jsx:141-143 | whenever there is a current album, the current index lies inside it |
| Streamer.DreamStreamer.constructor | spotify-clone/src/components/DreamStreamer/DreamStreamer.jsx:67-76 | on mount nothing plays and the purchases and liked songs are those saved in local storage, or empty |
| Streamer.DreamStreamer.PlayTrack | spotify-clone/src/components/DreamStreamer/DreamStreamer.jsx:134-175 | the previous element is paused and retired, the new one plays the request, the current index, album and track are the arguments, and a play with an album is reported |
| Streamer.DreamStreamer.TogglePlayPause | spotify-clone/src/components/DreamStreamer/DreamStreamer.jsx:177-182 | with an audio element its playing state and `isPlaying` flip together; without one nothing changes |
| Streamer.DreamStreamer.ToggleShuffle | spotify-clone/src/components/DreamStreamer/DreamStreamer.jsx:236 | the shuffle flag flips |
| Streamer.DreamStreamer.ToggleRepeat | spotify-clone/src/components/DreamStreamer/DreamStreamer.jsx:238 | the repeat flag flips |
| Streamer.DreamStreamer.PlayRandomTrack | spotify-clone/src/components/DreamStreamer/DreamStreamer.jsx:212-222 | with a current album the drawn track plays (possibly the same one); without one nothing changes |
| Streamer.DreamStreamer.Advance | spotify-clone/src/components/DreamStreamer/DreamStreamer.jsx:184-199 | carries out `NextChoice` for the shuffle flag seen: plays the chosen track, or on the last track only clears `isPlaying` |
| Streamer.DreamStreamer.PlayNextTrack | spotify-clone/src/components/DreamStreamer/DreamStreamer.jsx:184-199 | "next" with the page's shuffle flag, as `Advance` states |
| Streamer.DreamStreamer.PlayPreviousTrack | spotify-clone/src/components/DreamStreamer/DreamStreamer.jsx:201-210 | plays the track before the current one; on the first track or without an album nothing changes |
| Streamer.DreamStreamer.OnTrackEnded | spotify-clone/src/components/DreamStreamer/DreamStreamer.jsx:150-158 | the ended element stops; repeat replays the call that created it, else shuffle plays the drawn track, else the next-track rule applies, in that order of precedence |
| Streamer.DreamStreamer.HandlePurchaseClick | spotify-clone/src/components/DreamStreamer/DreamStreamer.jsx:88-96 | an album whose id is purchased changes nothing; any other opens the dialog for it |
| Streamer.DreamStreamer.ConfirmPurchase | spotify-clone/src/components/DreamStreamer/DreamStreamer.jsx:98-107 | with no pending album nothing changes; otherwise the album is appended, the new list is saved under "purchasedAlbums" and the dialog closes |
| Streamer.DreamStreamer.CancelPurchase | spotify-clone/src/components/DreamStreamer/DreamStreamer.jsx:109-111 | the dialog closes and nothing else changes |
| Streamer.DreamStreamer.ToggleLikeSong | spotify-clone/src/components/DreamStreamer/DreamStreamer.jsx:244-258 | the liked list becomes `LikeToggled` of the old one, is saved under "likedSongs", and the result says whether the song is now liked |
| Streamer.PlayThroughAlbum | spotify-clone/src/components/DreamStreamer/DreamStreamer.jsx:150-199 | playing track 0 of a three-track album and letting each end plays 0, 1, 2 and then stops |
| Streamer.PlayThenNext | spotify-clone/src/components/DreamStreamer/DreamStreamer.jsx:184-199 | on a fresh page, playing track i and pressing "next" with shuffle off plays track i+1, or stops on the last track |
| Streamer.ClickRowThenNext | spotify-clone/src/components/DreamStreamer/DreamStreamer.jsx:439-447 | with the corrected click, "next" plays the track after the clicked one in the album, or stops on the last |
| Streamer.PurchaseTwice | spotify-clone/src/components/DreamStreamer/DreamStreamer.jsx:88-107 | buying an album and clicking "buy" again: the second click is turned away and one copy is held |
| Streamer.RestoreAfterPurchase | spotify-clone/src/components/DreamStreamer/DreamStreamer.jsx:67-107 | a page mounted after a purchase restores exactly the purchased album |
| Streamer.LikeTwice | spotify-clone/src/components/DreamStreamer/DreamStreamer.jsx:244-258 | liking a song twice leaves it unliked and saves an empty list |
| AdminCatalog.InitialStats | spotify-clone/src/pages/AdminDashboard.jsx:31-32 | the fetched counters agree with the list: its length and the sum of its track counts |
| AdminCatalog.TrackTotal | spotify-clone/src/pages/AdminDashboard.jsx:31 | the track total is at least each album's track count, and is zero exactly when no album has a track |
| AdminCatalog.TrackTotalAppend | spotify-clone/src/pages/AdminDashboard.jsx:31 | the track sum of a concatenation is the sum of the parts' |
| AdminCatalog.UploadKeepsStatsAgree | spotify-clone/src/pages/AdminDashboard.jsx:148-153 | an upload that appends an album and adds 1 and its track count to the counters keeps them in agreement |
| AdminCatalog.StatsAfterUpload | spotify-clone/src/pages/AdminDashboard.jsx:150-153 | an upload raises the album counter by one and the track counter by the added album's track total |
| AdminCatalog.FirstWithId | spotify-clone/src/pages/AdminDashboard.jsx:258 | `find` returns an album with the id, and none before it has that id |
| AdminCatalog.AlbumsWithout | spotify-clone/src/pages/AdminDashboard.jsx:255 | after a delete no album has the id, the rest are kept, in order |
| AdminCatalog.StatsAfterDelete | spotify-clone/src/pages/AdminDashboard.jsx:256-259 | with unique ids the counters drop by exactly the albums and the tracks the delete removes from the list |
| AdminCatalog.DeleteUnique | spotify-clone/src/pages/AdminDashboard.jsx:255-259 | with unique ids a delete removes exactly one album and exactly its tracks |
| AdminCatalog.DeleteKeepsStatsAgree | spotify-clone/src/pages/AdminDashboard.jsx:255-259 | with unique ids a delete keeps the counters in agreement with the list |
| AdminCatalog.DuplicateIdsBreakDeleteStats | spotify-clone/src/pages/AdminDashboard.jsx:255-259 | with two albums sharing an id, a delete removes both while the album counter drops by one |
| AdminCatalog.UploadThenDeleteRestores | spotify-clone/src/pages/AdminDashboard.jsx:255-259 | deleting the id of an album just added (an id not listed before) restores the list and the counters |
| AdminCatalog.AlbumsUpdated | spotify-clone/src/pages/AdminDashboard.jsx:235 | an update replaces exactly the albums with the id and keeps the length and every other album |
| AdminCatalog.UpdateTrackTotal | spotify-clone/src/pages/AdminDashboard.jsx:235 | with unique ids an update trades the replaced album's tracks for the new album's |
| AdminCatalog.UpdateMissesAbsentId | spotify-clone/src/pages/AdminDashboard.jsx:235 | an update for an id no album has leaves the list as it is |
| AdminCatalog.UpdateKeepsStatsAgreeIff | spotify-clone/src/pages/AdminDashboard.jsx:233-236 | with unique ids and counters that agree before, the untouched counters still agree after an update exactly when the new album has as many tracks as the one it replaces |
| AdminCatalog.DerivedAlbumId | spotify-clone/src/pages/AdminDashboard.jsx:134 | the derived id has no white space and is no longer than the name, and a name without white space gets its lower-case form; with `DerivedAlbumIdAppend` and `BlankNameGetsEmptyId` this fixes the id of every name |
| AdminCatalog.DerivedAlbumIdAppend | spotify-clone/src/pages/AdminDashboard.jsx:134 | the id of a name made of two pieces is the pieces' ids run together, so white space added anywhere does not change the id |
| AdminCatalog.BlankNameGetsEmptyId | spotify-clone/src/pages/AdminDashboard.jsx:134 | a name of white space only gets the empty id |
| AdminCatalog.AlbumIdFor | spotify-clone/src/pages/AdminDashboard.jsx:134 | a non-empty id on the form is kept; otherwise the id derived from the name is used |
| AdminCatalog.SplitArtists | spotify-clone/src/pages/AdminDashboard.jsx:131 | one artist per comma plus one, each the trimmed comma piece of the text at its position, none containing a comma or starting or ending with white space |
| AdminCatalog.TrimKeepsOut | spotify-clone/src/pages/AdminDashboard.jsx:131 | trimming adds no character to a text |
| AdminCatalog.StoredUrl | spotify-clone/src/pages/AdminDashboard.jsx:135 | the stored URL has no '?', is a prefix of the signed URL, and is followed there by '?' or by nothing |
| AdminCatalog.UploadedTrack | spotify-clone/src/pages/AdminDashboard.jsx:124-128 | a track record carries the file's name, the label "Sony Music", no duration, and the stored form (`StoredUrl`) of its upload URL |
| AdminCatalog.TrackRecords | spotify-clone/src/pages/AdminDashboard.jsx:107-129 | one record per track file, in order, each with the file's name, the label "Sony Music", no duration and the stored form of its own upload URL |
| AdminCatalog.NewAlbum | spotify-clone/src/pages/AdminDashboard.jsx:133-142 | the uploaded album takes its id from `AlbumIdFor` (the derived id when the form has none), its name, genre and band from the form, the stored form of the art's upload URL, `parseInt` of the year field, and the artists and records given |
| AdminCatalog.YearTextParses | spotify-clone/src/pages/AdminDashboard.jsx:223 | `parseInt` of a loaded album's year field gives back the album's year (or NaN for none) |
| AdminCatalog.DetailsOf | spotify-clone/src/pages/AdminDashboard.jsx:58-62 | the form filled from a clicked album carries its id and its artist list, and its year field reads back as the album's year |
| AdminCatalog.UpdatedAlbum | spotify-clone/src/pages/AdminDashboard.jsx:220-226 | the saved album has the form's id, the given art URL and tracks, the form's artists (a loaded list as is, text split at commas) and `parseInt` of the year field |
| AdminCatalog.UnchangedFormSavesSameAlbum | spotify-clone/src/pages/AdminDashboard.jsx:220-226 | saving a loaded form unedited, with no new files, saves the album as it was |
| Admin.UploadTracks | spotify-clone/src/pages/AdminDashboard.jsx:107-129 | the loop pushes exactly `TrackRecords` of the picked files and their upload URLs |
| Admin.UploadedAlbum | spotify-clone/src/pages/AdminDashboard.jsx:131-142 | the album an upload adds: the form's id or the derived one, the form's name, the stored art URL, `parseInt` of the year, the comma-split trimmed artists and one record per picked track file |
| Admin.AdminDashboard.constructor | spotify-clone/src/pages/AdminDashboard.jsx:6-22 | the page starts with no albums, zero counters, no selection, an empty form and no files |
| Admin.AdminDashboard.FetchAlbums | spotify-clone/src/pages/AdminDashboard.jsx:25-38 | a successful fetch sets the list and counters that agree with it; a failed one changes nothing |
| Admin.AdminDashboard.HandleAlbumClick | spotify-clone/src/pages/AdminDashboard.jsx:58-62 | the clicked album is selected and the form is filled from it |
| Admin.AdminDashboard.ResetForm | spotify-clone/src/pages/AdminDashboard.jsx:286-296 | "Add Album" drops the selection and empties the form |
| Admin.AdminDashboard.HandleInputChange | spotify-clone/src/pages/AdminDashboard.jsx:65-68 | a form field takes the typed text, the artists field as text, and the album id is never touched |
| Admin.AdminDashboard.HandleFileChange | spotify-clone/src/pages/AdminDashboard.jsx:71-78 | picking art replaces the art, picking tracks appends them after those already picked, any other input changes nothing |
| Admin.AdminDashboard.HandleFileUpload | spotify-clone/src/pages/AdminDashboard.jsx:81-164 | without art or tracks nothing changes; it succeeds exactly when the uploads went through, the artists field is text and the answer is 200 or 201, appending the album and counting it; otherwise only the failure message is set |
| Admin.AdminDashboard.HandleUpdateAlbum | spotify-clone/src/pages/AdminDashboard.jsx:167-245 | it succeeds exactly when an album is selected, the uploads went through and the answer is 200 or 204, replacing the albums with the selected id; art and tracks are new only when new files were picked; on failure the list is unchanged, and the counters never change |
| Admin.AdminDashboard.HandleDeleteAlbum | spotify-clone/src/pages/AdminDashboard.jsx:248-264 | a confirmed, successful delete removes the albums with the id and lowers the counters by one album and the first match's tracks; otherwise nothing changes |
| Admin.UploadThenDelete | spotify-clone/src/pages/AdminDashboard.jsx:148-259 | after a fetch, uploading an album under a name whose derived id is not listed, then deleting that id, brings the list and the counters back |

## Left out

- Volume and playback progress/seeking (`DreamStreamer.jsx:146-148`, `224-234`): floating-point ratios over the browser's media element.
- The listener page's album fetch and the random prices it attaches (`DreamStreamer.jsx:50-63`): network input and float randomness. The views take the album list as an argument.
- The repeat and shuffle flags reach `OnTrackEnded` as arguments (`repeatSeen`, `shuffleSeen`) because the real listener reads them from a stale React closure.
- Streamer.DreamStreamer.OnTrackEnded: the current album and index are read as they are when the track ends. The real listener's `playNextTrack` and `playRandomTrack` read the values of the render in which `playTrack` ran. That staleness, and the interleaving of awaited handlers, are not modelled.
- JSON encoding of local storage: the stored values are the lists themselves. `WellFormedStorage` says each key holds the kind of list the page saves there.
- `toLowerCase` is modelled on ASCII letters only.
- `localeCompare` is modelled as code-point lexicographic order.
- `parseInt` is modelled in base 10 only; the `0x` prefix is not handled.
- Sorting.DurationOf: a track without a duration sorts as 0 seconds. The source comparator returns NaN for such a track, which makes the order engine-dependent.
- Network calls are parameters:
  - the album fetch, the signed-URL requests, the S3 uploads, and the album POST, PUT and DELETE;
  - the `most_played` report is recorded in `playReports`, and its failure, which the source ignores, is not modelled;
  - `requestAnalyticsReport` is a network call only.
- Admin.AdminDashboard.HandleFileUpload and Admin.AdminDashboard.HandleUpdateAlbum: a failure part-way through the uploads is one `TransferFailed` outcome. Files already sent before the failure are not modelled.
- Toasts, alerts, console output and the `isUploading` and `showFilterPanel` flags are left out; they are presentation only.
- The `isEditing` flag is left out, and so is the routing it decides (`AdminDashboard.jsx:445`, `452`). In the page the save button calls `handleUpdateAlbum` and Delete is shown only while editing; otherwise the button calls `handleFileUpload`. `handleAlbumClick` (`:58-62`) sets the flag, and "Add Album" (`:286-296`) clears it along with the form. The model lets either save handler be called in any state. So it also covers cases the page never reaches: `HandleFileUpload` with a loaded artist list (its failure branch), and `AlbumIdFor` with an id on the upload form.
- Catalog.Track: `duration` is a whole number of seconds (`int`). The source's durations are JavaScript numbers, possibly fractional, which the duration sort compares by subtraction (`DreamStreamer.jsx:302`). Fractional durations are not modelled.
- The filter forms are not state; the filters are arguments of `FilterAlbumsAndTracks` and `FilterAlbums`.
- The `trackLabels` form field is left out; no handler reads it.
- Listener-page navigation is left out: `viewPurchasedAlbums`, `viewLikedSongs`, `goBackToAlbums`, album selection, the filter modal and the subscription choice only switch which list is shown.
- A liked-songs row passes `track.album`, which track records do not carry. This is modelled as a request without an album, which `ValidRequest` allows.
- Admin.AdminDashboard.HandleDeleteAlbum requires the id to be in the list. The source's `find` would return `undefined` otherwise, and the counter update would throw.
- Admin.AdminDashboard.HandleUpdateAlbum requires `Valid()`: a selected album's form carries its id, as `handleAlbumClick` sets it.
- A loaded year is held in the form as its decimal text (`YearText`), which `parseInt` reads back exactly.
- `spotify-clone/src/App.jsx` (sign-in session and routing through foreign calls) is not part of this model.
- `spotify-clone/src/theme/customTheme.js` (a static theme object) is not part of this model.

## Findings

| source | as written | input that shows it | evidently intended | confidence | as-written member | corrected member |
|---|---|---|---|---|---|---|
| spotify-clone/src/components/DreamStreamer/DreamStreamer.jsx:439-447 | a click on a row of the sorted track list passes the row number as the track's index in the (unsorted) album, and next, previous and end-of-track then step from that index | album tracks "b" then "a", sort by name, click the first row ("a"): index 0 is recorded, and "next" plays album track 1, "a" again | the index passed is the clicked track's own position in the album, so playback moves on from the track clicked | medium, not executed | Streamer.SortedRowMisleadsNext | Streamer.RowRequest |
