/**
 * The playlist's operations on one ordering of tracks: the search for a track by ID, the
 * step to the next or previous track, and the removal of the first track with an ID.
 * Each loop of the playlist is a method here, proved against a function that says what it
 * computes; the lemmas relate those functions to one another.
 */
module PlaylistOrder {
  import opened Optional
  import opened Tracks

  /** Some track of `s` has ID `id`. */
  predicate HasID(s: seq<Track>, id: int)
  {
    exists k :: 0 <= k < |s| && s[k].id == id
  }

  /** No two tracks of `s` share an ID (the primary-key discipline). */
  predicate UniqueIDs(s: seq<Track>)
  {
    forall i, j :: 0 <= i < j < |s| ==> s[i].id != s[j].id
  }

  /** The position of the first track of `s` with ID `id`, if there is one. */
  function FirstIndex(s: seq<Track>, id: int): (r: Option<nat>)
    ensures r.None? <==> !HasID(s, id)
    ensures r.Some? ==> r.value < |s| && s[r.value].id == id
    ensures r.Some? ==> forall j :: 0 <= j < r.value ==> s[j].id != id
  {
    if |s| == 0 then None
    else if s[0].id == id then Some(0)
    else
      match FirstIndex(s[1..], id)
      case None =>
        assert forall k :: 1 <= k < |s| ==> s[k] == s[1..][k - 1];
        None
      case Some(k) =>
        assert forall j :: 1 <= j <= k ==> s[j] == s[1..][j - 1];
        Some(k + 1)
  }

  /**
   * The track after the first one with ID `activeID`. Past the last track the ordering
   * wraps around to the first only when `shuffleOn`.
   */
  function NextOf(s: seq<Track>, activeID: int, shuffleOn: bool): (r: Option<Track>)
    ensures r.Some? ==> HasID(s, activeID) && r.value in s
    ensures (HasID(s, activeID) && r.None?) ==> !shuffleOn && s[|s| - 1].id == activeID
  {
    match FirstIndex(s, activeID)
    case None => None
    case Some(i) =>
      if i == |s| - 1 then (if shuffleOn then Some(s[0]) else None)
      else Some(s[i + 1])
  }

  /**
   * The track before the first one with ID `activeID`. Before the first track the
   * ordering wraps around to the last only when `shuffleOn`.
   */
  function PreviousOf(s: seq<Track>, activeID: int, shuffleOn: bool): (r: Option<Track>)
    ensures r.Some? ==> HasID(s, activeID) && r.value in s
    ensures (HasID(s, activeID) && r.None?) ==> !shuffleOn && s[0].id == activeID
  {
    match FirstIndex(s, activeID)
    case None => None
    case Some(i) =>
      if i == 0 then (if shuffleOn then Some(s[|s| - 1]) else None)
      else Some(s[i - 1])
  }

  /** `s` without its first track of ID `id`; `s` itself when there is none. */
  function RemoveFirst(s: seq<Track>, id: int): (r: seq<Track>)
    ensures !HasID(s, id) ==> r == s
    ensures HasID(s, id) ==> |r| == |s| - 1
  {
    match FirstIndex(s, id)
    case None => s
    case Some(i) => s[..i] + s[i + 1..]
  }

  /** The nondeterministic `shuffle()`: any permutation of `s`. */
  method Shuffle(s: seq<Track>) returns (r: seq<Track>)
    ensures multiset(r) == multiset(s)
  {
    r :| multiset(r) == multiset(s);
  }

  /** The scan for the active track: the index of the first track with ID `activeID`. */
  method FindActive(tracks: seq<Track>, activeID: int) returns (index: Option<nat>)
    requires |tracks| > 0
    ensures index.None? <==> !HasID(tracks, activeID)
    ensures index.Some? ==> index.value < |tracks| && tracks[index.value].id == activeID
    ensures index.Some? ==> !HasID(tracks[..index.value], activeID)
  {
    index := None;
    var i := 0;
    while i <= |tracks| - 1
      invariant 0 <= i <= |tracks|
      invariant forall j :: 0 <= j < i ==> tracks[j].id != activeID
    {
      if tracks[i].id == activeID {
        index := Some(i);
        break;
      }
      i := i + 1;
    }
  }

  /**
   * `nextTrack` on the ordering `tracks`: the track after the first one whose ID is
   * `activeID`; after the last track, the first when shuffle is on and none otherwise;
   * none when no track has that ID.
   */
  method FindNext(tracks: seq<Track>, activeID: int, shuffleOn: bool) returns (next: Option<Track>)
    requires |tracks| > 0
    ensures next == NextOf(tracks, activeID, shuffleOn)
    ensures !HasID(tracks, activeID) ==> next.None?
    ensures forall i :: (0 <= i < |tracks| - 1 && tracks[i].id == activeID && !HasID(tracks[..i], activeID))
              ==> next == Some(tracks[i + 1])
    ensures (tracks[|tracks| - 1].id == activeID && !HasID(tracks[..|tracks| - 1], activeID))
              ==> next == (if shuffleOn then Some(tracks[0]) else None)
  {
    var index := FindActive(tracks, activeID);
    match index
    case Some(indexFound) =>
      AtFirstMatch(tracks, activeID, indexFound);
      if indexFound == |tracks| - 1 {
        if shuffleOn {
          next := Some(tracks[0]);
        } else {
          next := None;
        }
      } else {
        next := Some(tracks[indexFound + 1]);
      }
    case None =>
      next := None;
  }

  /**
   * `previousTrack` on the ordering `tracks`: the track before the first one whose ID is
   * `activeID`; before the first track, the last when shuffle is on and none otherwise;
   * none when no track has that ID.
   */
  method FindPrevious(tracks: seq<Track>, activeID: int, shuffleOn: bool) returns (previous: Option<Track>)
    requires |tracks| > 0
    ensures previous == PreviousOf(tracks, activeID, shuffleOn)
    ensures !HasID(tracks, activeID) ==> previous.None?
    ensures forall i :: (0 < i < |tracks| && tracks[i].id == activeID && !HasID(tracks[..i], activeID))
              ==> previous == Some(tracks[i - 1])
    ensures tracks[0].id == activeID ==> previous == (if shuffleOn then Some(tracks[|tracks| - 1]) else None)
  {
    var index := FindActive(tracks, activeID);
    match index
    case Some(indexFound) =>
      AtFirstMatch(tracks, activeID, indexFound);
      if indexFound == 0 {
        if shuffleOn {
          previous := Some(tracks[|tracks| - 1]);
        } else {
          previous := None;
        }
      } else {
        previous := Some(tracks[indexFound - 1]);
      }
    case None =>
      previous := None;
  }

  /**
   * The removal loop of `removeTrack` on one ordering: drops the first track of ID `id`
   * and reports whether there was one.
   */
  method RemoveFirstMatch(s: seq<Track>, id: int) returns (rest: seq<Track>, found: bool)
    requires |s| > 0
    ensures found <==> HasID(s, id)
    ensures rest == RemoveFirst(s, id)
  {
    rest := s;
    found := false;
    for index := 0 to |s|
      invariant rest == s && !found
      invariant forall j :: 0 <= j < index ==> s[j].id != id
    {
      if s[index].id == id {
        rest := s[..index] + s[index + 1..];
        found := true;
        AtFirstMatch(s, id, index);
        break;
      }
    }
  }

  /** A position with no earlier match is the one `FirstIndex` finds. */
  lemma AtFirstMatch(s: seq<Track>, id: int, i: nat)
    requires i < |s| && s[i].id == id
    requires forall j :: 0 <= j < i ==> s[j].id != id
    ensures FirstIndex(s, id) == Some(i)
  {
  }

  /**
   * Removal keeps every other track, in its order, and drops exactly the first match.
   */
  lemma {:induction false} RemoveFirstContents(s: seq<Track>, id: int)
    ensures !HasID(s, id) ==> RemoveFirst(s, id) == s
    ensures HasID(s, id) ==> |RemoveFirst(s, id)| == |s| - 1
    ensures HasID(s, id) ==>
      var i := FirstIndex(s, id).value;
      && (forall k :: 0 <= k < i ==> RemoveFirst(s, id)[k] == s[k])
      && (forall k :: i <= k < |s| - 1 ==> RemoveFirst(s, id)[k] == s[k + 1])
      && multiset(RemoveFirst(s, id)) == multiset(s) - multiset{s[i]}
  {
    if HasID(s, id) {
      var i := FirstIndex(s, id).value;
      assert s == s[..i] + [s[i]] + s[i + 1..];
    }
  }

  /** Tracks with the same multiset of objects have the same IDs. */
  lemma SameTracksSameIDs(a: seq<Track>, b: seq<Track>, id: int)
    requires multiset(a) == multiset(b)
    ensures HasID(a, id) <==> HasID(b, id)
  {
    if HasID(a, id) {
      var k :| 0 <= k < |a| && a[k].id == id;
      assert a[k] in multiset(b);
      var m :| 0 <= m < |b| && b[m] == a[k];
    }
    if HasID(b, id) {
      var k :| 0 <= k < |b| && b[k].id == id;
      assert b[k] in multiset(a);
      var m :| 0 <= m < |a| && a[m] == b[k];
    }
  }

  /** With unique IDs, removal leaves no track of that ID and keeps IDs unique. */
  lemma RemoveFirstUnique(s: seq<Track>, id: int)
    requires UniqueIDs(s)
    ensures !HasID(RemoveFirst(s, id), id)
    ensures UniqueIDs(RemoveFirst(s, id))
  {
    RemoveFirstContents(s, id);
    if HasID(s, id) {
      var r := RemoveFirst(s, id);
      var i := FirstIndex(s, id).value;
      forall k | 0 <= k < |r| ensures r[k].id != id {
        if k < i { assert r[k] == s[k]; } else { assert r[k] == s[k + 1]; }
      }
      forall p, q | 0 <= p < q < |r| ensures r[p].id != r[q].id {
        var p' := if p < i then p else p + 1;
        var q' := if q < i then q else q + 1;
        assert r[p] == s[p'] && r[q] == s[q'];
      }
    }
  }

  /**
   * With unique IDs, removing the first match from two permutations of the same tracks
   * leaves two permutations of the same tracks: the shuffled ordering stays in step with
   * the original one.
   */
  lemma RemoveFirstKeepsPermutation(a: seq<Track>, b: seq<Track>, id: int)
    requires multiset(a) == multiset(b)
    requires UniqueIDs(a)
    ensures multiset(RemoveFirst(a, id)) == multiset(RemoveFirst(b, id))
  {
    RemoveFirstContents(a, id);
    RemoveFirstContents(b, id);
    SameTracksSameIDs(a, b, id);
    if HasID(a, id) {
      var i := FirstIndex(a, id).value;
      var k := FirstIndex(b, id).value;
      assert b[k] in multiset(a);
      var j :| 0 <= j < |a| && a[j] == b[k];
      assert a[j].id == a[i].id;
    }
  }

  /**
   * Without unique IDs the two orderings can fall out of step: two distinct tracks with
   * one ID, in opposite orders, lose different tracks.
   */
  lemma RemoveFirstCanDesynchronise(x: Track, y: Track)
    requires x != y && x.id == y.id
    ensures multiset([x, y]) == multiset([y, x])
    ensures multiset(RemoveFirst([x, y], x.id)) != multiset(RemoveFirst([y, x], x.id))
  {
    assert FirstIndex([x, y], x.id) == Some(0);
    assert FirstIndex([y, x], x.id) == Some(0);
    assert RemoveFirst([x, y], x.id) == [y];
    assert RemoveFirst([y, x], x.id) == [x];
    assert x !in multiset([y]);
  }

  /**
   * With unique IDs, stepping back from the next track returns to the active one.
   */
  lemma NextThenPrevious(s: seq<Track>, activeID: int, shuffleOn: bool)
    requires UniqueIDs(s)
    requires NextOf(s, activeID, shuffleOn).Some?
    ensures HasID(s, activeID)
    ensures PreviousOf(s, NextOf(s, activeID, shuffleOn).value.id, shuffleOn) == Some(s[FirstIndex(s, activeID).value])
  {
    var i := FirstIndex(s, activeID).value;
    var n := if i == |s| - 1 then 0 else i + 1;
    assert NextOf(s, activeID, shuffleOn).value == s[n];
    AtFirstMatch(s, s[n].id, n);
  }

  /**
   * With unique IDs, stepping forward from the previous track returns to the active one.
   */
  lemma PreviousThenNext(s: seq<Track>, activeID: int, shuffleOn: bool)
    requires UniqueIDs(s)
    requires PreviousOf(s, activeID, shuffleOn).Some?
    ensures HasID(s, activeID)
    ensures NextOf(s, PreviousOf(s, activeID, shuffleOn).value.id, shuffleOn) == Some(s[FirstIndex(s, activeID).value])
  {
    var i := FirstIndex(s, activeID).value;
    var p := if i == 0 then |s| - 1 else i - 1;
    assert PreviousOf(s, activeID, shuffleOn).value == s[p];
    AtFirstMatch(s, s[p].id, p);
  }

  /**
   * With shuffle on, navigation never runs out: every track present has a next and a
   * previous track.
   */
  lemma ShuffledNavigationIsCircular(s: seq<Track>, activeID: int)
    requires HasID(s, activeID)
    ensures NextOf(s, activeID, true).Some? && PreviousOf(s, activeID, true).Some?
    ensures NextOf(s, activeID, false).None? <==> FirstIndex(s, activeID).value == |s| - 1
    ensures PreviousOf(s, activeID, false).None? <==> FirstIndex(s, activeID).value == 0
  {
  }

  /**
   * Three tracks with IDs 1, 2 and 3: in order, the second steps to the third and back
   * to the first, and the last has no successor; shuffled as [c, a, b], the last wraps
   * around to the first.
   */
  lemma ThreeTrackScenario(a: Track, b: Track, c: Track)
    requires a.id == 1 && b.id == 2 && c.id == 3
    ensures NextOf([a, b, c], 2, false) == Some(c)
    ensures PreviousOf([a, b, c], 2, false) == Some(a)
    ensures NextOf([a, b, c], 3, false) == None
    ensures NextOf([c, a, b], 2, true) == Some(c)
  {
    AtFirstMatch([a, b, c], 2, 1);
    AtFirstMatch([a, b, c], 3, 2);
    AtFirstMatch([c, a, b], 2, 2);
  }
}
