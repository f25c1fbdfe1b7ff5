/**
 * The playlist: an original ordering of tracks, a lazily built shuffled ordering of the
 * same tracks, a shuffle switch whose every assignment notifies the delegate, a track
 * count, and a source tag that decides how a deleted track is handled.
 *
 * The player's active track reaches the navigation methods as its ID; the delegate is
 * a flag (`hasDelegate`) and a counter of the notifications it has received.
 */
module Playlists {
  import opened Optional
  import opened Payload
  import opened Tracks
  import opened PlaylistOrder

  datatype PlaylistSource = Web | Local

  /** The "items" array of a response; empty when it is missing or not an array. */
  function ItemsOf(response: map<string, Value>): (items: seq<Value>)
    ensures ("items" in response && response["items"].Array?) ==> items == response["items"].items
    ensures !("items" in response && response["items"].Array?) ==> items == []
  {
    if "items" in response && response["items"].Array? then response["items"].items else []
  }

  /** Every item is a track payload the parser can handle. */
  predicate WellFormedItems(items: seq<Value>)
  {
    forall k :: 0 <= k < |items| ==> items[k].Dict? && WellFormedTrackResponse(items[k].fields)
  }

  /**
   * The tracks of a local-store result set, in result order, skipping the results that
   * are not tracks.
   */
  function StoredTracks(results: seq<Option<Track>>): (r: seq<Track>)
    ensures |r| <= |results|
    ensures forall k :: 0 <= k < |r| ==> Some(r[k]) in results
    ensures forall k :: 0 <= k < |results| && results[k].Some? ==> results[k].value in r
  {
    if |results| == 0 then []
    else
      var init := results[..|results| - 1];
      assert results == init + [results[|results| - 1]];
      match results[|results| - 1]
      case Some(t) => StoredTracks(init) + [t]
      case None => StoredTracks(init)
  }

  /**
   * The stored tracks of two consecutive runs of results are those of the first run
   * followed by those of the second: result order is kept.
   */
  lemma {:induction false} StoredTracksAppend(a: seq<Option<Track>>, b: seq<Option<Track>>)
    ensures StoredTracks(a + b) == StoredTracks(a) + StoredTracks(b)
    decreases |b|
  {
    if |b| == 0 {
      assert a + b == a;
    } else {
      var init := b[..|b| - 1];
      assert (a + b)[..|a + b| - 1] == a + init;
      StoredTracksAppend(a, init);
    }
  }

  /** When every result is a track, the stored tracks are the results, one for one, in order. */
  lemma {:induction false} StoredTracksOfTracksOnly(results: seq<Option<Track>>)
    requires forall k :: 0 <= k < |results| ==> results[k].Some?
    ensures |StoredTracks(results)| == |results|
    ensures forall k :: 0 <= k < |results| ==> StoredTracks(results)[k] == results[k].value
  {
    if |results| > 0 {
      StoredTracksOfTracksOnly(results[..|results| - 1]);
    }
  }

  /**
   * The parsing loop of the response initialisers: one fresh track per payload item,
   * in payload order.
   */
  method ParseTracks(items: seq<Value>, cacheStatus: int -> bool) returns (tracks: seq<Track>)
    requires WellFormedItems(items)
    ensures |tracks| == |items|
    ensures forall k :: 0 <= k < |tracks| ==> fresh(tracks[k])
    ensures forall k :: 0 <= k < |tracks| ==> tracks[k].ParsedFrom(items[k].fields, cacheStatus)
    ensures forall k :: 0 <= k < |tracks| ==> !tracks[k].isArtworkCached && tracks[k].artworkImage.None?
  {
    tracks := [];
    for k := 0 to |items|
      invariant |tracks| == k
      invariant forall j :: 0 <= j < k ==> fresh(tracks[j])
      invariant forall j :: 0 <= j < k ==> tracks[j].ParsedFrom(items[j].fields, cacheStatus)
      invariant forall j :: 0 <= j < k ==> !tracks[j].isArtworkCached && tracks[j].artworkImage.None?
    {
      var track := new Track.FromResponse(items[k].fields, cacheStatus);
      tracks := tracks + [track];
    }
  }

  /**
   * The loop of the web branch of the deletion handler over one ordering: every track of
   * `s` with ID `id` is marked as no longer cached.
   */
  method MarkNotCached(s: seq<Track>, id: int)
    modifies set t | t in s
    ensures forall t :: t in s ==> t.isCached == (if t.id == id then false else old(t.isCached))
    ensures forall t :: t in s ==> t.isArtworkCached == old(t.isArtworkCached) && t.artworkImage == old(t.artworkImage)
  {
    for i := 0 to |s|
      invariant forall t :: t in s ==>
                  t.isCached == (if t.id == id && t in s[..i] then false else old(t.isCached))
      invariant forall t :: t in s ==>
                  t.isArtworkCached == old(t.isArtworkCached) && t.artworkImage == old(t.artworkImage)
    {
      var matchingTrack := s[i];
      if matchingTrack.id == id {
        matchingTrack.isCached := false;
      }
      assert s[..i + 1] == s[..i] + [s[i]];
    }
    assert s[..|s|] == s;
  }

  class Playlist {
    var source: PlaylistSource
    var identifier: string
    var originalTracks: seq<Track>
    /** The lazily built shuffled ordering: None until it is first read or assigned. */
    var shuffledCache: Option<seq<Track>>
    var trackCount: int
    var shuffleOn: bool
    /** A delegate is attached. */
    var hasDelegate: bool
    /** The order-change notifications the delegate has received. */
    var orderChangeNotifications: nat
    /** The response a web playlist was parsed from. */
    var responseJSON: Option<map<string, Value>>

    /** The tracks this playlist holds in either ordering. */
    ghost function Members(): set<Track>
      reads this
    {
      (set t | t in originalTracks) + (if shuffledCache.Some? then set t | t in shuffledCache.value else {})
    }

    /** The shuffled ordering, once built, is a permutation of the original one. */
    ghost predicate OrderingsInStep()
      reads this
    {
      shuffledCache.Some? ==> multiset(shuffledCache.value) == multiset(originalTracks)
    }

    /** The `tracks` property: the shuffled ordering when shuffle is on, else the original. */
    ghost function EffectiveOrder(): (order: seq<Track>)
      reads this
      requires !shuffleOn || shuffledCache.Some?
      ensures !shuffleOn ==> order == originalTracks
      ensures OrderingsInStep() ==> multiset(order) == multiset(originalTracks)
    {
      if shuffleOn then shuffledCache.value else originalTracks
    }

    /** The length `tracks` has once read (building the shuffled ordering keeps the length). */
    function EffectiveLength(): nat
      reads this
    {
      if shuffleOn && shuffledCache.Some? then |shuffledCache.value| else |originalTracks|
    }

    /**
     * The lazy shuffled ordering was built from the original ordering if `fill` asked for
     * it and it was missing; otherwise it is as it was.
     */
    twostate predicate LazilyFilled(fill: bool)
      reads this
    {
      if fill && old(shuffledCache).None? then
        shuffledCache.Some? && multiset(shuffledCache.value) == multiset(originalTracks)
      else
        shuffledCache == old(shuffledCache)
    }

    /**
     * The outcome of `removeTrack` for ID `id`: the first match is gone from the original
     * ordering and from `scanned`, the shuffled ordering as `removeTrack` read it (built
     * from the already shortened original ordering if it was missing); `removed` says
     * whether both had a match.
     */
    twostate predicate RemovedFirst(id: int, removed: bool, new scanned: seq<Track>)
      reads this
    {
      && originalTracks == RemoveFirst(old(originalTracks), id)
      && (old(shuffledCache).Some? ==> scanned == old(shuffledCache).value)
      && (old(shuffledCache).None? ==> multiset(scanned) == multiset(originalTracks))
      && shuffledCache == Some(RemoveFirst(scanned, id))
      && removed == (HasID(old(originalTracks), id) && HasID(scanned, id))
    }

    /**
     * `removeTrack` does not trap: the original ordering is not empty, nor is the
     * shuffled one it scans (which, when missing, is built after the first removal).
     */
    predicate CanRemove(id: int)
      reads this
    {
      && |originalTracks| > 0
      && (if shuffledCache.Some? then |shuffledCache.value| > 0
          else |RemoveFirst(originalTracks, id)| > 0)
    }

    /** An empty web playlist. */
    constructor ()
      ensures source == Web && identifier == "Unspecified"
      ensures originalTracks == [] && shuffledCache.None? && trackCount == 0
      ensures !shuffleOn && !hasDelegate && orderChangeNotifications == 0 && responseJSON.None?
    {
      source := Web;
      identifier := "Unspecified";
      originalTracks := [];
      shuffledCache := None;
      trackCount := 0;
      shuffleOn := false;
      hasDelegate := false;
      orderChangeNotifications := 0;
      responseJSON := None;
    }

    /** A web playlist over `tracks`, counting them. */
    constructor WithTracks(tracks: seq<Track>)
      ensures source == Web && identifier == "Unspecified"
      ensures originalTracks == tracks && shuffledCache.None? && trackCount == |tracks|
      ensures !shuffleOn && !hasDelegate && orderChangeNotifications == 0 && responseJSON.None?
    {
      source := Web;
      identifier := "Unspecified";
      originalTracks := tracks;
      shuffledCache := None;
      trackCount := |tracks|;
      shuffleOn := false;
      hasDelegate := false;
      orderChangeNotifications := 0;
      responseJSON := None;
    }

    /** A web playlist parsed from a bare array of track payloads; the count stays 0. */
    static method InitWithResponseArray(response: seq<Value>, cacheStatus: int -> bool) returns (p: Playlist)
      requires WellFormedItems(response)
      ensures fresh(p) && p.source == Web && !p.shuffleOn && p.trackCount == 0
      ensures |p.originalTracks| == |response|
      ensures forall k :: 0 <= k < |response| ==>
                fresh(p.originalTracks[k]) && p.originalTracks[k].ParsedFrom(response[k].fields, cacheStatus)
      ensures p.shuffledCache.Some? && p.OrderingsInStep()
    {
      p := new Playlist();
      var parsed := ParseTracks(response, cacheStatus);
      p.originalTracks := p.originalTracks + parsed;
      var shuffled := Shuffle(p.originalTracks);
      p.shuffledCache := Some(shuffled);
    }

    /**
     * A web playlist parsed from a response: its tracks are the "items", in order (none
     * when "items" is missing), and its count is the response's "count", whatever the
     * number of items.
     */
    static method InitWithResponse(response: map<string, Value>, cacheStatus: int -> bool) returns (p: Playlist)
      requires HasInt(response, "count")
      requires WellFormedItems(ItemsOf(response))
      ensures fresh(p) && p.source == Web && !p.shuffleOn
      ensures p.trackCount == response["count"].i && p.responseJSON == Some(response)
      ensures |p.originalTracks| == |ItemsOf(response)|
      ensures forall k :: 0 <= k < |p.originalTracks| ==>
                fresh(p.originalTracks[k]) && p.originalTracks[k].ParsedFrom(ItemsOf(response)[k].fields, cacheStatus)
      ensures p.shuffledCache.Some? && p.OrderingsInStep()
    {
      p := new Playlist();
      p.responseJSON := Some(response);
      p.trackCount := response["count"].i;
      var parsed := ParseTracks(ItemsOf(response), cacheStatus);
      p.originalTracks := p.originalTracks + parsed;
      var shuffled := Shuffle(p.originalTracks);
      p.shuffledCache := Some(shuffled);
    }

    /** A local playlist over the tracks of a local-store result set, in result order. */
    static method InitWithRLMResults(results: seq<Option<Track>>) returns (p: Playlist)
      ensures fresh(p) && p.source == Local && !p.shuffleOn && p.trackCount == 0
      ensures p.originalTracks == StoredTracks(results) && p.shuffledCache.None?
    {
      p := new Playlist();
      p.source := Local;
      for k := 0 to |results|
        invariant p.originalTracks == StoredTracks(results[..k])
        invariant p.source == Local && !p.shuffleOn && p.trackCount == 0 && p.shuffledCache.None?
      {
        assert results[..k + 1][..k] == results[..k];
        if results[k].Some? {
          p.originalTracks := p.originalTracks + [results[k].value];
        }
      }
      assert results[..|results|] == results;
    }

    /** Assigning the shuffle switch: it takes the value and the delegate is notified, changed or not. */
    method SetShuffleOn(on: bool)
      modifies this`shuffleOn, this`orderChangeNotifications
      ensures shuffleOn == on
      ensures orderChangeNotifications == old(orderChangeNotifications) + (if hasDelegate then 1 else 0)
    {
      shuffleOn := on;
      if hasDelegate {
        orderChangeNotifications := orderChangeNotifications + 1;
      }
    }

    /** The lazy `shuffledTracks` getter: built from the original ordering on first read. */
    method ShuffledTracks() returns (shuffled: seq<Track>)
      modifies this`shuffledCache
      ensures LazilyFilled(true)
      ensures shuffledCache == Some(shuffled)
      ensures old(OrderingsInStep()) ==> OrderingsInStep()
    {
      if shuffledCache.None? {
        var built := Shuffle(originalTracks);
        shuffledCache := Some(built);
      }
      shuffled := shuffledCache.value;
    }

    /** The `tracks` property; reading it with shuffle on builds the shuffled ordering. */
    method Tracks() returns (tracks: seq<Track>)
      modifies this`shuffledCache
      ensures LazilyFilled(shuffleOn)
      ensures !shuffleOn || shuffledCache.Some?
      ensures tracks == EffectiveOrder()
      ensures |tracks| == old(EffectiveLength())
      ensures old(OrderingsInStep()) ==> OrderingsInStep()
    {
      if shuffleOn {
        tracks := ShuffledTracks();
        assert |multiset(tracks)| == |tracks| && |multiset(originalTracks)| == |originalTracks|;
      } else {
        tracks := originalTracks;
      }
    }

    /** `nextTrack`: the track after the active one in the effective ordering. */
    method NextTrack(activeID: int) returns (next: Option<Track>)
      requires EffectiveLength() > 0
      modifies this`shuffledCache
      ensures LazilyFilled(shuffleOn)
      ensures !shuffleOn || shuffledCache.Some?
      ensures next == NextOf(EffectiveOrder(), activeID, shuffleOn)
      ensures old(OrderingsInStep()) ==> OrderingsInStep()
    {
      var tracks := Tracks();
      next := FindNext(tracks, activeID, shuffleOn);
    }

    /** `previousTrack`: the track before the active one in the effective ordering. */
    method PreviousTrack(activeID: int) returns (previous: Option<Track>)
      requires EffectiveLength() > 0
      modifies this`shuffledCache
      ensures LazilyFilled(shuffleOn)
      ensures !shuffleOn || shuffledCache.Some?
      ensures previous == PreviousOf(EffectiveOrder(), activeID, shuffleOn)
      ensures old(OrderingsInStep()) ==> OrderingsInStep()
    {
      var tracks := Tracks();
      previous := FindPrevious(tracks, activeID, shuffleOn);
    }

    /** `reshuffle`: a new shuffled ordering of the original tracks, and shuffle switched on. */
    method Reshuffle()
      modifies this`shuffledCache, this`shuffleOn, this`orderChangeNotifications
      ensures shuffledCache.Some? && OrderingsInStep()
      ensures shuffleOn
      ensures orderChangeNotifications == old(orderChangeNotifications) + (if hasDelegate then 1 else 0)
    {
      var shuffled := Shuffle(originalTracks);
      shuffledCache := Some(shuffled);
      SetShuffleOn(true);
    }

    /**
     * `removeTrack`: drops the first track with the given track's ID from each ordering;
     * true iff both had one. The count is left as it was.
     */
    method RemoveTrack(track: Track) returns (removed: bool)
      requires CanRemove(track.id)
      modifies this`originalTracks, this`shuffledCache
      ensures exists scanned :: RemovedFirst(track.id, removed, scanned)
      ensures trackCount == old(trackCount)
      ensures UniqueIDs(old(originalTracks)) && old(OrderingsInStep()) && old(shuffledCache).Some? ==>
                && removed == HasID(old(originalTracks), track.id)
                && OrderingsInStep()
                && !HasID(originalTracks, track.id) && !HasID(shuffledCache.value, track.id)
      ensures UniqueIDs(old(originalTracks)) && old(shuffledCache).None? ==>
                && !removed && OrderingsInStep()
                && !HasID(originalTracks, track.id) && !HasID(shuffledCache.value, track.id)
    {
      var id := track.id;
      ghost var original := originalTracks;
      ghost var cache := shuffledCache;
      var remaining, resultLinear := RemoveFirstMatch(originalTracks, id);
      originalTracks := remaining;
      var shuffled := ShuffledTracks();
      var shuffledRemaining, resultShuffled := RemoveFirstMatch(shuffled, id);
      shuffledCache := Some(shuffledRemaining);
      removed := resultLinear && resultShuffled;
      assert RemovedFirst(id, removed, shuffled);
      if UniqueIDs(original) {
        RemoveFirstUnique(original, id);
        if cache.Some? && multiset(cache.value) == multiset(original) {
          RemoveFirstKeepsPermutation(original, cache.value, id);
          SameTracksSameIDs(original, cache.value, id);
          SameTracksSameIDs(originalTracks, shuffledCache.value, id);
        }
        if cache.None? {
          SameTracksSameIDs(originalTracks, shuffled, id);
          RemoveFirstContents(shuffled, id);
        }
      }
    }

    /**
     * `addTrack`: appends the track, shuffles the new ordering afresh and counts the
     * tracks.
     */
    method AddTrack(track: Track)
      modifies this`originalTracks, this`shuffledCache, this`trackCount
      ensures originalTracks == old(originalTracks) + [track]
      ensures shuffledCache.Some? && OrderingsInStep()
      ensures trackCount == |originalTracks| == |old(originalTracks)| + 1
    {
      originalTracks := originalTracks + [track];
      var shuffled := Shuffle(originalTracks);
      shuffledCache := Some(shuffled);
      trackCount := |originalTracks|;
    }

    /**
     * The handler of the "track deleted" notification; `deleted` is its payload, None
     * when it carries no track. A web playlist keeps the track but marks every copy of
     * it in either ordering as no longer cached (reading the shuffled ordering, and so
     * building it if missing); a local playlist removes it as `removeTrack` does.
     */
    method HandleTrackDelete(deleted: Option<Track>)
      requires deleted.Some? && source == Local ==> CanRemove(deleted.value.id)
      modifies this`originalTracks, this`shuffledCache, Members()
      ensures trackCount == old(trackCount)
      ensures forall t :: t in old(Members()) ==>
                t.isArtworkCached == old(t.isArtworkCached) && t.artworkImage == old(t.artworkImage)
      ensures !(deleted.Some? && source == Web) ==>
                forall t :: t in old(Members()) ==> t.isCached == old(t.isCached)
      ensures deleted.None? ==> originalTracks == old(originalTracks) && shuffledCache == old(shuffledCache)
      ensures deleted.Some? && source == Web ==>
                && originalTracks == old(originalTracks)
                && LazilyFilled(true)
                && (forall t :: t in old(Members()) ==>
                      t.isCached == (if t.id == deleted.value.id then false else old(t.isCached)))
      ensures deleted.Some? && source == Web && old(OrderingsInStep()) ==> OrderingsInStep()
      ensures deleted.Some? && source == Local ==> exists removed, scanned :: RemovedFirst(deleted.value.id, removed, scanned)
      ensures deleted.Some? && source == Local && UniqueIDs(old(originalTracks)) && old(OrderingsInStep()) ==>
                && OrderingsInStep()
                && !HasID(originalTracks, deleted.value.id) && !HasID(shuffledCache.value, deleted.value.id)
    {
      if deleted.None? {
        return;
      }
      var id := deleted.value.id;
      match source
      case Web =>
        ghost var before := Members();
        MarkNotCached(originalTracks, id);
        var shuffled := ShuffledTracks();
        forall t | t in shuffled ensures t in before {
          assert t in multiset(shuffled);
        }
        MarkNotCached(shuffled, id);
      case Local =>
        var removed := RemoveTrack(deleted.value);
    }
  }

  /**
   * The removal of a local playlist's only track, before its shuffled ordering is built,
   * traps: dropping the track empties the original ordering, the shuffled one is then
   * built empty, and its scan range has nothing in it.
   */
  lemma SoleTrackUnbuiltCannotBeRemoved(p: Playlist, t: Track)
    requires p.originalTracks == [t] && p.shuffledCache.None?
    ensures !p.CanRemove(t.id)
  {
    assert HasID(p.originalTracks, t.id) by { assert p.originalTracks[0].id == t.id; }
  }
}
