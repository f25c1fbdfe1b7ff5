# EyePatchPlayer playlist and track model

A Dafny model of the playlist and the track record of the EyePatchPlayer iOS music player.

A **playlist** (`Playlists.Playlist`) holds two orderings of track objects:
- `originalTracks`, the original ordering;
- `shuffledCache`, the shuffled ordering. It is built on first read or assignment, as the lazy property of the source is. It is None until then.

It also holds a shuffle switch, a track count and a source tag (Web or Local). The delegate is modelled as a flag and a counter of "order changed" notifications. Every assignment to the shuffle switch fires one notification when a delegate is attached, whether or not the value changes.

The effective ordering `tracks` is the shuffled ordering when shuffle is on, and the original ordering otherwise. `nextTrack` and `previousTrack` look in that ordering for the first track whose ID is the active one. They step forward or back, and wrap around only when shuffle is on. The player's active track is a parameter, given by its ID.

`removeTrack` and `addTrack` edit both orderings. `reshuffle` replaces the shuffled ordering and switches shuffle on. The track-deleted handler either marks the matching tracks as not cached (Web) or removes the track (Local).

A **track** (`Tracks.Track`) is a class, because the source changes its cache flags and its artwork slot in place, and playlists share track objects. The fields the source sets only when it builds a track are `const`: title, artist, owner, duration, ID, URL string and lyrics ID. The media-cache flag, the artwork-cached flag and the in-memory artwork are `var`.

Randomness, the on-disk cache and the JSON payload are modelled as follows:
- `shuffle()` is `PlaylistOrder.Shuffle`, a nondeterministic choice of any permutation.
- The cache oracle is a set of parameters. The cache status is a function from track ID to bool. The cover image found on disk, the outcome of an artwork write and the cache path are plain arguments.
- JSON payloads are values of the datatype `Payload.Value`.

The loops of the source are methods with loop invariants. Each states its result in terms of a specification:
- The search, navigation and removal loops are proved against functions in `PlaylistOrder`: `FirstIndex`, `NextOf`, `PreviousOf` and `RemoveFirst`. Lemmas relate those functions: next and previous undo each other, removal keeps the two orderings permutations of each other, and so on.
- The parsing loop `Playlists.ParseTracks` is proved against the predicate `Tracks.Track.ParsedFrom`.
- The cache-marking loop `Playlists.MarkNotCached` states the new flags of every track it scans, in its own postconditions.
- The loop of `Playlists.Playlist.InitWithRLMResults` is proved against the function `Playlists.StoredTracks`. Lemmas about that function show that it keeps result order.

Edge cases of the code that the model keeps:
- **Empty orderings:** the `0...count-1` ranges (EyePatchPlayer/EPMusicPlaylist.swift:53, :89, :132, :140) trap on an empty array. Navigation and removal therefore require a non-empty ordering. For a local playlist, a deletion of its only track before its shuffled ordering is built traps too (`Playlists.SoleTrackUnbuiltCannotBeRemoved`).
- **Notifications:** `didSet` fires on every assignment to the shuffle switch, changed value or not.
- **Removal with an unbuilt shuffled ordering:** `removeTrack` builds the shuffled ordering only after it has already removed the track from the original ordering. With unique IDs, `removeTrack` therefore returns false for a track that was present. `Playlists.Playlist.RemoveTrack` states this.

## Model

| member | source | states |
|---|---|---|
| `Playlists.Playlist.Tracks` | EyePatchPlayer/EPMusicPlaylist.swift:18-22 | the result is the shuffled ordering when shuffle is on and the original one otherwise; reading it with shuffle on builds a missing shuffled ordering as a permutation of the original; its length is the original's when it is built |
| `Playlists.Playlist.ShuffledTracks` | EyePatchPlayer/EPMusicPlaylist.swift:30-34 | a missing shuffled ordering is filled with a permutation of the original ordering and then stays stored; an existing one is returned unchanged |
| `Playlists.Playlist.SetShuffleOn` | EyePatchPlayer/EPMusicPlaylist.swift:37-42 | the switch takes the assigned value and the delegate's notification count goes up by exactly one when a delegate is attached, changed value or not |
| `Playlists.Playlist.EffectiveOrder` | EyePatchPlayer/EPMusicPlaylist.swift:18-22 | with shuffle off, the effective ordering is the original one; when the orderings are in step, it is a permutation of the original one |
| `PlaylistOrder.Shuffle` | EyePatchPlayer/EPMusicPlaylist.swift:30-34 | the result is a permutation of the given ordering |
| `PlaylistOrder.FirstIndex` | EyePatchPlayer/EPMusicPlaylist.swift:53-58 | none iff no track has the ID; otherwise an in-range index of a track with that ID and no match before it |
| `PlaylistOrder.FindActive` | EyePatchPlayer/EPMusicPlaylist.swift:51-58 | the scan loop finds an index iff some track has the active ID, and the index found is the first match |
| `PlaylistOrder.NextOf` | EyePatchPlayer/EPMusicPlaylist.swift:53-80 | a next track is one of the ordering's tracks, and exists only when the active ID is present; with the ID present, it is missing only with shuffle off and the first match at the last position |
| `PlaylistOrder.PreviousOf` | EyePatchPlayer/EPMusicPlaylist.swift:89-117 | a previous track is one of the ordering's tracks, and exists only when the active ID is present; with the ID present, it is missing only with shuffle off and the first match at the first position |
| `PlaylistOrder.FindNext` | EyePatchPlayer/EPMusicPlaylist.swift:47-81 | with i the first match, returns track i+1 when i is not last; at the last track returns the first track when shuffle is on and none when it is off; none when the ID is absent |
| `PlaylistOrder.FindPrevious` | EyePatchPlayer/EPMusicPlaylist.swift:83-118 | with i the first match, returns track i-1 when i > 0; at the first track returns the last track when shuffle is on and none when it is off; none when the ID is absent |
| `Playlists.Playlist.NextTrack` | EyePatchPlayer/EPMusicPlaylist.swift:47-81 | the result is the next track of the effective ordering; only a missing shuffled ordering may change, and only when shuffle is on; the orderings stay permutations of each other |
| `Playlists.Playlist.PreviousTrack` | EyePatchPlayer/EPMusicPlaylist.swift:83-118 | the result is the previous track of the effective ordering, with the same frame as `NextTrack` |
| `PlaylistOrder.NextThenPrevious` | EyePatchPlayer/EPMusicPlaylist.swift:53-117 | with unique IDs, the previous track of the next track is the active track, wrapping included |
| `PlaylistOrder.PreviousThenNext` | EyePatchPlayer/EPMusicPlaylist.swift:53-117 | with unique IDs, the next track of the previous track is the active track, wrapping included |
| `PlaylistOrder.ShuffledNavigationIsCircular` | EyePatchPlayer/EPMusicPlaylist.swift:60-75 | with shuffle on, every present track has a next and a previous track; with shuffle off, next is absent exactly at the last position and previous exactly at the first |
| `PlaylistOrder.ThreeTrackScenario` | EyePatchPlayer/EPMusicPlaylist.swift:53-117 | for tracks with IDs 1, 2 and 3 in order: next of 2 is 3, previous of 2 is 1, and 3 has no next; in the shuffled order [3, 1, 2] with shuffle on, next of 2 wraps to 3 |
| `Playlists.Playlist.Reshuffle` | EyePatchPlayer/EPMusicPlaylist.swift:120-123 | the original ordering is untouched, the shuffled ordering becomes a permutation of it, shuffle is on, and exactly one notification is fired when a delegate is attached |
| `PlaylistOrder.RemoveFirst` | EyePatchPlayer/EPMusicPlaylist.swift:132-146 | without a matching track the ordering is unchanged; with one it is one track shorter |
| `PlaylistOrder.RemoveFirstMatch` | EyePatchPlayer/EPMusicPlaylist.swift:132-138 | the removal loop reports a match iff some track has the ID, and leaves the ordering without its first match |
| `PlaylistOrder.RemoveFirstContents` | EyePatchPlayer/EPMusicPlaylist.swift:132-146 | removal without a match changes nothing; with a match it drops exactly the first matching track, keeps all other tracks in their order, and shortens the ordering by one |
| `PlaylistOrder.RemoveFirstUnique` | EyePatchPlayer/EPMusicPlaylist.swift:132-146 | with unique IDs, no track of the removed ID is left and the IDs stay unique |
| `PlaylistOrder.SameTracksSameIDs` | EyePatchPlayer/EPMusicPlaylist.swift:30-34 | two permutations of the same tracks contain the same IDs |
| `PlaylistOrder.RemoveFirstKeepsPermutation` | EyePatchPlayer/EPMusicPlaylist.swift:127-149 | with unique IDs, removing the first match from two permutations of the same tracks leaves two permutations of the same tracks |
| `PlaylistOrder.RemoveFirstCanDesynchronise` | EyePatchPlayer/EPMusicPlaylist.swift:132-146 | two distinct tracks with one ID, in opposite orders, lose different tracks, so the orderings fall out of step |
| `Playlists.Playlist.RemoveTrack` | EyePatchPlayer/EPMusicPlaylist.swift:127-149 | the first match is removed from the original ordering and from the shuffled one as read (built after the first removal if missing); true iff both had a match; the count is unchanged; with unique IDs and orderings in step, true iff the track was present, and no copy of it is left; with unique IDs and no shuffled ordering yet, false |
| `Playlists.SoleTrackUnbuiltCannotBeRemoved` | EyePatchPlayer/EPMusicPlaylist.swift:127-149 | a playlist whose only track is the one removed, with no shuffled ordering yet, cannot be passed to `removeTrack` without a trap: after the first removal the shuffled ordering is built empty |
| `Playlists.Playlist.AddTrack` | EyePatchPlayer/EPMusicPlaylist.swift:151-155 | the original ordering is the old one with the track appended, the shuffled ordering is a permutation of it, and the count is its new length, one more than before |
| `Playlists.Playlist.constructor` | EyePatchPlayer/EPMusicPlaylist.swift:158-161 | an empty web playlist, count 0, shuffle off, no shuffled ordering yet |
| `Playlists.Playlist.WithTracks` | EyePatchPlayer/EPMusicPlaylist.swift:168-171 | the original ordering is the given list and the count is its length |
| `Playlists.ItemsOf` | EyePatchPlayer/EPMusicPlaylist.swift:197-205 | the items are the payload's "items" when it is an array, and there are none when it is missing or not an array |
| `Playlists.ParseTracks` | EyePatchPlayer/EPMusicPlaylist.swift:198-202 | one fresh track per payload item, in payload order, each parsed from its item |
| `Playlists.Playlist.InitWithResponseArray` | EyePatchPlayer/EPMusicPlaylist.swift:173-188 | the tracks are those parsed from the array in order, the shuffled ordering is a permutation of them, and the count stays 0 |
| `Playlists.Playlist.InitWithResponse` | EyePatchPlayer/EPMusicPlaylist.swift:190-213 | the count is the response's "count", not the number of items; the tracks are parsed from "items" in order, and there are none when "items" is missing; the shuffled ordering is a permutation of them; the response is kept |
| `Playlists.StoredTracks` | EyePatchPlayer/EPMusicPlaylist.swift:218-223 | every kept track comes from the result set, every track result is kept, and the ordering is no longer than the result set |
| `Playlists.StoredTracksAppend` | EyePatchPlayer/EPMusicPlaylist.swift:219-223 | the tracks of two consecutive runs of results are those of the first run followed by those of the second, so result order is kept |
| `Playlists.StoredTracksOfTracksOnly` | EyePatchPlayer/EPMusicPlaylist.swift:219-223 | when every result is a track, the playlist holds exactly the results, one for one and in result order |
| `Playlists.Playlist.InitWithRLMResults` | EyePatchPlayer/EPMusicPlaylist.swift:215-232 | a local playlist whose tracks are the result set's tracks in result order; the count stays 0 and no shuffled ordering is built |
| `Playlists.MarkNotCached` | EyePatchPlayer/EPMusicPlaylist.swift:250-260 | every track of the ordering with the ID is marked not cached; all other flags and artwork are unchanged |
| `Playlists.Playlist.HandleTrackDelete` | EyePatchPlayer/EPMusicPlaylist.swift:244-279 | without a track in the payload nothing changes; Web: both orderings keep their tracks, lengths and order (a missing shuffled ordering is built), every matching track in either one is marked not cached, and the count is unchanged; Local: the outcome is exactly that of `removeTrack`, and with unique IDs and orderings in step no copy of the track is left in either ordering |
| `Tracks.Track.constructor` | EyePatchPlayer/EPTrack.swift:13-26 | a track with the given fields and the artwork-cached flag at its default, false |
| `Tracks.LyricsIDOf` | EyePatchPlayer/EPTrack.swift:38-40 | the lyrics ID is present iff "lyrics_id" is an integer, and is then that integer |
| `Tracks.Track.FromResponse` | EyePatchPlayer/EPTrack.swift:28-42 | title, artist, duration, owner_id, id and url are mapped to their fields; the cache flag is the oracle's answer for the ID; the lyrics ID is set iff "lyrics_id" is an integer, and then to it |
| `Tracks.Track.ArtworkImage` | EyePatchPlayer/EPTrack.swift:57-69 | an image in memory is returned as is; without one, the result is none unless the media and the artwork are both cached, and then it is the cached cover; an image returned is the one kept in memory, so the next call returns it from memory |
| `Tracks.Track.ClearArtworkImage` | EyePatchPlayer/EPTrack.swift:71-74 | the in-memory image is emptied |
| `Tracks.Track.AddArtworkImage` | EyePatchPlayer/EPTrack.swift:76-111 | the in-memory image is always the given one; the artwork-cached flag changes only for a cached track whose artwork was not cached, and then it becomes true iff the write succeeded on the unobserved path |
| `Tracks.Track.URL` | EyePatchPlayer/EPTrack.swift:113-120 | a file URL at the cache path iff the track is cached, otherwise the track's remote URL string |
| `Tracks.Track.Copy` | EyePatchPlayer/EPTrack.swift:122-136 | a fresh track with the same title, artist, duration, owner, ID, URL string, cache flag, lyrics ID and in-memory image, whose artwork-cached flag is false |

## Left out

- Logging and timing (`print`, `CFAbsoluteTimeGetCurrent`): these have no effect on state.
- The creation date of a playlist: it is a clock reading. The identifier is kept only as its default value, because the core only logs it.
- Subscribing to and unsubscribing from the notification centre, and `deinit`: these are platform publish/subscribe. The handler is modelled as an ordinary method whose argument is the notification's track payload.
- The delegate is a weak reference. The model keeps only whether one is attached and how many notifications it has received.
- The randomness of `shuffle()`: any permutation can result.
- The persistence layer: Realm write transactions and the persisted copy on the observed path of `addArtworkImage`.
- Tracks.Track.AddArtworkImage: leaves this object's artwork-cached flag unchanged on the observed path, which holds only for a track the store does not hold. The copy is written with `addOrUpdateObject`, keyed by the primary key ID (EyePatchPlayer/EPTrack.swift:91, :142-144). Local playlists hold the store's own objects (EyePatchPlayer/EPMusicPlaylist.swift:219-223), so for such a track the write updates the very record this object reads, and its flag becomes true. The model does not capture that update.
- The file system and the cache: `hasFileAtPath`, JPEG encoding, cache paths and status lookups. Their answers are parameters. The cache status is assumed to depend only on the track's ID.
- The forced casts and unwraps of the parsers. A payload that would crash them is excluded by a precondition: the keys of a track, the type of each item, and "count" as an integer.
- `integerValue` on a "count" given as a string is not modelled.
- JSON numbers are modelled as integers only. Under Swift 2's NSNumber bridging, `as? Int` also succeeds on a boolean or a fractional number, truncating it (a "lyrics_id" of true or 3.5 gives 1 or 3). In the model such a value is not an `Int`, so `Tracks.LyricsIDOf` gives none and the parsers' preconditions exclude it for the other integer keys.
- A malformed URL string, on which `NSURL(string:)!` would crash, is not modelled.
- The download-progress handle, the list of ignored properties and the primary-key declaration: these are persistence and UI metadata. The primary key shows up only as the `UniqueIDs` hypothesis of the lemmas.
- `defaultTrack`: this is fixture data.
- EyePatchPlayer/EPVerticalBandSlider.swift and EyePatchPlayer/EPMusicPlayerRemoteManager.swift are not part of this model. They are a floating-point touch control and operating-system remote-control glue.
