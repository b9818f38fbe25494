/**
 * add_music.py: the filter/dedup stages and the `add_music` pipeline that
 * moves new, unsaved tracks of a collection into the pending playlist.
 */
module AddMusic {
  import opened Wrappers
  import opened Utils
  import opened Spotify

  // ---------------------------------------------------------------------------
  // Track filters: id_is_safe, get_tracks_ids, non_duplicate_collection_tracks
  // ---------------------------------------------------------------------------

  /** `id_is_safe(track)`: false for a missing track, otherwise whether its id is present. */
  predicate IdIsSafe(track: Option<Track>)
    ensures IdIsSafe(track) <==> track.Some? && track.value.id.Some?
  {
    match track
    case None => false
    case Some(t) => t.id.Some?
  }

  /**
   * The `acceptable` argument of `get_tracks_ids`: the default `id_is_safe`,
   * or the closure of `non_duplicate_collection_tracks` over `playlist_ids`.
   */
  datatype Acceptance = Safe | NotIn(excluded: set<Id>)

  predicate Acceptable(a: Acceptance, track: Option<Track>)
    ensures Acceptable(a, track) ==> IdIsSafe(track)
  {
    match a
    case Safe => IdIsSafe(track)
    case NotIn(excluded) =>
      match track
      case None => false
      case Some(t) => IdIsSafe(track) && t.id.value !in excluded
  }

  /** `[track['id'] for track in tracks if acceptable(track) and track['id'] is not None]`. */
  function TracksIds(tracks: seq<Option<Track>>, a: Acceptance): (ids: seq<Id>)
    ensures |ids| <= |tracks|
  {
    if |tracks| == 0 then []
    else
      var t := tracks[0];
      (if Acceptable(a, t) && t.value.id.Some? then [t.value.id.value] else []) + TracksIds(tracks[1..], a)
  }

  /** An id is returned exactly when some accepted track carries it. */
  lemma {:induction false} TracksIdsMembership(tracks: seq<Option<Track>>, a: Acceptance, x: Id)
    ensures x in TracksIds(tracks, a) <==>
      exists i :: 0 <= i < |tracks| && Acceptable(a, tracks[i]) && tracks[i].value.id == Some(x)
  {
    if |tracks| > 0 {
      TracksIdsMembership(tracks[1..], a, x);
      assert forall i :: 1 <= i < |tracks| ==> tracks[1..][i - 1] == tracks[i];
      if Acceptable(a, tracks[0]) && tracks[0].value.id == Some(x) {
        assert x in TracksIds(tracks, a);
      }
    }
  }

  /** Candidates `[a, b, c, a]` with `{b}` excluded give `[a, c, a]`: the repeat of `a` stays. */
  lemma NotInExample(a: Id, b: Id, c: Id)
    requires a != b && c != b
    ensures TracksIds([Some(Track(Some(a))), Some(Track(Some(b))), Some(Track(Some(c))), Some(Track(Some(a)))], NotIn({b}))
      == [a, c, a]
  {
    var ex := NotIn({b});
    var ts := [Some(Track(Some(a))), Some(Track(Some(b))), Some(Track(Some(c))), Some(Track(Some(a)))];
    assert TracksIds(ts[3..], ex) == [a] by {
      assert ts[3..][1..] == [];
    }
    assert ts[2..][1..] == ts[3..];
    assert ts[1..][1..] == ts[2..];
    assert TracksIds(ts[1..], ex) == TracksIds(ts[2..], ex);
  }

  /** Order is kept: the ids of a concatenation are the concatenation of the ids. */
  lemma {:induction false} TracksIdsAppend(s: seq<Option<Track>>, u: seq<Option<Track>>, a: Acceptance)
    ensures TracksIds(s + u, a) == TracksIds(s, a) + TracksIds(u, a)
  {
    if |s| > 0 {
      assert (s + u)[1..] == s[1..] + u;
      TracksIdsAppend(s[1..], u, a);
    } else {
      assert s + u == u;
    }
  }

  /**
   * Excluding a set removes every occurrence of its ids and nothing else:
   * repeated candidates are kept as often as they occur.
   */
  lemma {:induction false} NotInKeepsRepeats(tracks: seq<Option<Track>>, excluded: set<Id>, x: Id)
    ensures multiset(TracksIds(tracks, NotIn(excluded)))[x] ==
      if x in excluded then 0 else multiset(TracksIds(tracks, Safe))[x]
  {
    if |tracks| > 0 {
      NotInKeepsRepeats(tracks[1..], excluded, x);
      var t := tracks[0];
      var rest1 := TracksIds(tracks[1..], NotIn(excluded));
      var rest2 := TracksIds(tracks[1..], Safe);
      assert TracksIds(tracks, NotIn(excluded)) ==
        (if Acceptable(NotIn(excluded), t) && t.value.id.Some? then [t.value.id.value] else []) + rest1;
      assert TracksIds(tracks, Safe) ==
        (if Acceptable(Safe, t) && t.value.id.Some? then [t.value.id.value] else []) + rest2;
    }
  }

  /** `get_tracks_ids(collection_id, acceptable)`: fails exactly when fetching the collection does. */
  function GetTracksIds(api: Api, collectionId: string, a: Acceptance): (r: Result<seq<Id>, Error>)
    ensures r.Success? <==> GetTracks(api, collectionId).Success?
    ensures r.Success? ==> |r.value| <= |GetTracks(api, collectionId).value|
  {
    match GetTracks(api, collectionId)
    case Success(tracks) => Success(TracksIds(tracks, a))
    case Failure(e) => Failure(e)
  }

  /** `non_duplicate_collection_tracks(collection_id, playlist_ids)`: no returned id is already pending. */
  function NonDuplicateCollectionTracks(api: Api, collectionId: string, playlistIds: set<Id>): (r: Result<seq<Id>, Error>)
    ensures r.Success? ==> forall x :: x in r.value ==> x !in playlistIds
    ensures r.Success? <==> GetTracksIds(api, collectionId, Safe).Success?
  {
    match GetTracksIds(api, collectionId, NotIn(playlistIds))
    case Failure(e) => Failure(e)
    case Success(ids) =>
      assert forall x :: x in ids ==> x !in playlistIds by {
        forall x | x in ids ensures x !in playlistIds {
          TracksIdsMembership(GetTracks(api, collectionId).value, NotIn(playlistIds), x);
        }
      }
      Success(ids)
  }

  // ---------------------------------------------------------------------------
  // Saved-status partition: filter_by_saved
  // ---------------------------------------------------------------------------

  /**
   * The selection of `filter_by_saved` as written:
   * `[ids[idx] for idx, saved in enumerate(saved_ids) if saved != get_saved]`.
   * It keeps the ids whose flag DIFFERS from `getSaved`.
   */
  function SelectBySavedAsWritten(ids: seq<Id>, saved: seq<bool>, getSaved: bool): (r: seq<Id>)
    requires |saved| == |ids|
    ensures |r| <= |ids|
  {
    if |ids| == 0 then []
    else (if saved[0] != getSaved then [ids[0]] else []) + SelectBySavedAsWritten(ids[1..], saved[1..], getSaved)
  }

  /**
   * The selection `filter_by_saved` is called for: the ids whose flag EQUALS
   * `getSaved` (`getSaved` true: the saved ids; false, the default: the unsaved ids).
   */
  function SelectBySaved(ids: seq<Id>, saved: seq<bool>, getSaved: bool): (r: seq<Id>)
    requires |saved| == |ids|
    ensures |r| <= |ids|
  {
    if |ids| == 0 then []
    else (if saved[0] == getSaved then [ids[0]] else []) + SelectBySaved(ids[1..], saved[1..], getSaved)
  }

  /** The selection as written is the intended one with the flag inverted. */
  lemma {:induction false} SelectBySavedAsWrittenInverted(ids: seq<Id>, saved: seq<bool>, getSaved: bool)
    requires |saved| == |ids|
    ensures SelectBySavedAsWritten(ids, saved, getSaved) == SelectBySaved(ids, saved, !getSaved)
  {
    if |ids| > 0 {
      SelectBySavedAsWrittenInverted(ids[1..], saved[1..], getSaved);
    }
  }

  /** An id is selected exactly when it sits at a position whose flag equals `getSaved`. */
  lemma {:induction false} SelectBySavedMembership(ids: seq<Id>, saved: seq<bool>, getSaved: bool, x: Id)
    requires |saved| == |ids|
    ensures x in SelectBySaved(ids, saved, getSaved) <==>
      exists i :: 0 <= i < |ids| && ids[i] == x && saved[i] == getSaved
  {
    if |ids| > 0 {
      SelectBySavedMembership(ids[1..], saved[1..], getSaved, x);
      assert forall i :: 1 <= i < |ids| ==> ids[1..][i - 1] == ids[i] && saved[1..][i - 1] == saved[i];
      if saved[0] == getSaved && ids[0] == x {
        assert x in SelectBySaved(ids, saved, getSaved);
      }
    }
  }

  /** The selection keeps the input order: it distributes over concatenation. */
  lemma {:induction false} SelectBySavedAppend(a: seq<Id>, s: seq<bool>, b: seq<Id>, t: seq<bool>, getSaved: bool)
    requires |s| == |a| && |t| == |b|
    ensures SelectBySaved(a + b, s + t, getSaved) == SelectBySaved(a, s, getSaved) + SelectBySaved(b, t, getSaved)
  {
    if |a| > 0 {
      assert (a + b)[1..] == a[1..] + b && (s + t)[1..] == s[1..] + t;
      SelectBySavedAppend(a[1..], s[1..], b, t, getSaved);
    } else {
      assert a + b == b && s + t == t;
    }
  }

  /** The saved and the unsaved selections together hold every id exactly as often as `ids`. */
  lemma {:induction false} SelectBySavedPartition(ids: seq<Id>, saved: seq<bool>)
    requires |saved| == |ids|
    ensures multiset(SelectBySaved(ids, saved, true)) + multiset(SelectBySaved(ids, saved, false)) == multiset(ids)
  {
    if |ids| > 0 {
      SelectBySavedPartition(ids[1..], saved[1..]);
      var head := [ids[0]];
      var savedRest := SelectBySaved(ids[1..], saved[1..], true);
      var unsavedRest := SelectBySaved(ids[1..], saved[1..], false);
      if saved[0] {
        assert SelectBySaved(ids, saved, true) == head + savedRest;
        assert SelectBySaved(ids, saved, false) == unsavedRest;
      } else {
        assert SelectBySaved(ids, saved, true) == savedRest;
        assert SelectBySaved(ids, saved, false) == head + unsavedRest;
      }
      assert ids == head + ids[1..];
      assert multiset(ids) == multiset(head) + multiset(ids[1..]);
    }
  }

  /** `filter_by_saved(ids, get_saved)` as written: aborts when the lookup does, then selects with the inverted test. */
  function FilterBySavedAsWritten(lookup: seq<Id> -> Option<seq<bool>>, ids: seq<Id>, getSaved: bool): (r: Result<seq<Id>, Error>)
    ensures r.Success? <==> SavedIds(lookup, ids).Success?
    ensures r.Success? ==> r.value == SelectBySaved(ids, SavedIds(lookup, ids).value, !getSaved)
  {
    match SavedIds(lookup, ids)
    case Failure(e) => Failure(e)
    case Success(saved) =>
      SelectBySavedAsWrittenInverted(ids, saved, getSaved);
      Success(SelectBySavedAsWritten(ids, saved, getSaved))
  }

  /**
   * One id that the lookup reports saved: the default call as written returns
   * it (so `add_music` would add a track that is already saved), the intended
   * one returns nothing; with `get_saved` set it is the other way round (so
   * the purge would remove the unsaved tracks and keep the saved ones).
   */
  lemma FilterBySavedAsWrittenReturnsSaved(lookup: seq<Id> -> Option<seq<bool>>, x: Id)
    requires lookup([x]) == Some([true])
    ensures FilterBySavedAsWritten(lookup, [x], false) == Success([x])
    ensures FilterBySaved(lookup, [x], false) == Success([])
    ensures FilterBySavedAsWritten(lookup, [x], true) == Success([])
    ensures FilterBySaved(lookup, [x], true) == Success([x])
  {
    assert ChunksOf([x], SavedLookupLimit) == [[x]];
    assert [[x]][1..] == [];
    assert SavedAnswers(lookup, []) == [];
    assert Padded(lookup([x])) == [true];
    assert SavedAnswers(lookup, [[x]]) == Padded(lookup([x])) + SavedAnswers(lookup, []);
    assert SavedAnswers(lookup, ChunksOf([x], SavedLookupLimit)) == [true];
    assert SavedIds(lookup, [x]) == Success([true]);
    assert [x][1..] == [] && [true][1..] == [];
    assert SelectBySavedAsWritten([x], [true], false) == [x] + SelectBySavedAsWritten([], [], false);
    assert SelectBySavedAsWritten([], [], false) == [];
    assert SelectBySavedAsWritten([x], [true], false) == [x];
    assert FilterBySavedAsWritten(lookup, [x], false) == Success(SelectBySavedAsWritten([x], [true], false));
  }

  /** `filter_by_saved(ids, get_saved)` as intended: aborts when the saved-status lookup does. */
  function FilterBySaved(lookup: seq<Id> -> Option<seq<bool>>, ids: seq<Id>, getSaved: bool): (r: Result<seq<Id>, Error>)
    ensures r.Success? <==> SavedIds(lookup, ids).Success?
    ensures r.Success? ==> forall x :: x in r.value ==> x in ids
  {
    match SavedIds(lookup, ids)
    case Failure(e) => Failure(e)
    case Success(saved) =>
      var r := SelectBySaved(ids, saved, getSaved);
      assert forall x :: x in r ==> x in ids by {
        forall x | x in r ensures x in ids {
          SelectBySavedMembership(ids, saved, getSaved, x);
        }
      }
      Success(r)
  }

  /** The lookup over `ids` answered `flag` for some occurrence of `x` (True: saved, False: unsaved). */
  ghost predicate Reported(lookup: seq<Id> -> Option<seq<bool>>, ids: seq<Id>, x: Id, flag: bool)
  {
    SavedIds(lookup, ids).Success? &&
    exists i :: 0 <= i < |ids| && ids[i] == x && SavedIds(lookup, ids).value[i] == flag
  }

  /**
   * The two calls partition `ids`: both succeed or both fail, the saved call
   * returns exactly the ids reported saved, the default call exactly those
   * reported unsaved, and together they hold every id as often as `ids` does.
   */
  lemma FilterBySavedPartition(lookup: seq<Id> -> Option<seq<bool>>, ids: seq<Id>, x: Id)
    ensures FilterBySaved(lookup, ids, true).Success? <==> FilterBySaved(lookup, ids, false).Success?
    ensures FilterBySaved(lookup, ids, true).Success? ==>
      (x in FilterBySaved(lookup, ids, true).value <==> Reported(lookup, ids, x, true)) &&
      (x in FilterBySaved(lookup, ids, false).value <==> Reported(lookup, ids, x, false)) &&
      multiset(FilterBySaved(lookup, ids, true).value) + multiset(FilterBySaved(lookup, ids, false).value) == multiset(ids)
  {
    if SavedIds(lookup, ids).Success? {
      var saved := SavedIds(lookup, ids).value;
      SelectBySavedMembership(ids, saved, true, x);
      SelectBySavedMembership(ids, saved, false, x);
      SelectBySavedPartition(ids, saved);
    }
  }

  // ---------------------------------------------------------------------------
  // The pipeline: add_music
  // ---------------------------------------------------------------------------

  /**
   * The `filter_by_saved` a run is built on: the one add_music.py defines, or
   * the one its callers are written for (see `FilterBySavedAsWrittenReturnsSaved`).
   */
  datatype SavedFilter = AsWritten | Intended

  /** `filter_by_saved(ids, get_saved)` under `filter`: the filter as written is the intended one with `get_saved` negated. */
  function FilterStage(filter: SavedFilter, lookup: seq<Id> -> Option<seq<bool>>, ids: seq<Id>, getSaved: bool)
    : (r: Result<seq<Id>, Error>)
    ensures r == FilterBySaved(lookup, ids, if filter == AsWritten then !getSaved else getSaved)
  {
    match filter
    case AsWritten => FilterBySavedAsWritten(lookup, ids, getSaved)
    case Intended => FilterBySaved(lookup, ids, getSaved)
  }

  /** How a run ended: normally, or on a failed assertion. */
  datatype Outcome = Completed | Aborted(error: Error)

  /** The write requests a run sends, in order, and how it ends. */
  datatype Run = Run(writes: seq<Request>, outcome: Outcome)

  function SetOf(s: seq<Id>): (r: set<Id>)
    ensures forall x :: x in r <==> x in s
  {
    set x | x in s
  }

  /** The removal requests of `remove_saved_songs_of_pending_playlist(ids)`. */
  function SavedRemoval(api: Api, pending: string, playlistIds: seq<Id>, filter: SavedFilter): Result<seq<Request>, Error>
  {
    match FilterStage(filter, api.savedContains, playlistIds, true)
    case Failure(e) => Failure(e)
    case Success(savedIds) => Success(BatchRequests(RemoveAllOccurrences, pending, savedIds))
  }

  /** The add requests of the second half of `add_music`: new candidates, then `filter_by_saved(ids)` of them. */
  function AddStage(api: Api, pending: string, collectionId: string, playlistIds: seq<Id>, filter: SavedFilter)
    : Result<seq<Request>, Error>
  {
    match NonDuplicateCollectionTracks(api, collectionId, SetOf(playlistIds))
    case Failure(e) => Failure(e)
    case Success(ids) =>
      match FilterStage(filter, api.savedContains, ids, false)
      case Failure(e) => Failure(e)
      case Success(unsavedIds) => Success(BatchRequests(AddItems, pending, unsavedIds))
  }

  /** Reference definition of `add_music(collection_id, remove_saved)` built on `filter`. */
  function AddMusicRun(api: Api, pending: string, collectionId: string, removeSaved: bool, filter: SavedFilter): Run
  {
    match GetTracksIds(api, pending, Safe)
    case Failure(e) => Run([], Aborted(e))
    case Success(playlistIds) =>
      var removal := if removeSaved then SavedRemoval(api, pending, playlistIds, filter) else Success([]);
      match removal
      case Failure(e) => Run([], Aborted(e))
      case Success(removes) =>
        match AddStage(api, pending, collectionId, playlistIds, filter)
        case Failure(e) => Run(removes, Aborted(e))
        case Success(adds) => Run(removes + adds, Completed)
  }

  /** `remove_saved_songs_of_pending_playlist(ids)`. */
  method RemoveSavedSongsOfPendingPlaylist(api: Api, remote: Remote, pending: string, ids: seq<Id>, filter: SavedFilter)
    returns (r: Result<seq<Request>, Error>)
    modifies remote
    ensures r == SavedRemoval(api, pending, ids, filter)
    ensures remote.log == old(remote.log) + (if r.Success? then Attempts(remote.rejects, r.value) else [])
  {
    var savedIds := FilterStage(filter, api.savedContains, ids, true);
    if savedIds.Failure? {
      return Failure(savedIds.error);
    }
    RemoveSongsFromPlaylist(remote, savedIds.value, pending);
    r := Success(BatchRequests(RemoveAllOccurrences, pending, savedIds.value));
  }

  /**
   * Every id `add_music` adds goes to the pending playlist, was not among the
   * pending ids read at the start, and was reported unsaved by the lookup,
   * under the intended filter; under the filter as written it was reported saved.
   */
  lemma AddMusicAddsOnlyNew(api: Api, pending: string, collectionId: string, removeSaved: bool, filter: SavedFilter,
                            req: Request, x: Id)
    requires req in AddMusicRun(api, pending, collectionId, removeSaved, filter).writes
    requires req.op == AddItems && x in req.ids
    ensures req.playlistId == pending
    ensures GetTracksIds(api, pending, Safe).Success?
    ensures x !in GetTracksIds(api, pending, Safe).value
    ensures NonDuplicateCollectionTracks(api, collectionId, SetOf(GetTracksIds(api, pending, Safe).value)).Success?
    ensures Reported(api.savedContains,
      NonDuplicateCollectionTracks(api, collectionId, SetOf(GetTracksIds(api, pending, Safe).value)).value, x,
      filter == AsWritten)
  {
    var playlistIds := GetTracksIds(api, pending, Safe).value;
    var removal := if removeSaved then SavedRemoval(api, pending, playlistIds, filter) else Success([]);
    var removes := removal.value;
    var adds := AddStage(api, pending, collectionId, playlistIds, filter).value;
    assert AddMusicRun(api, pending, collectionId, removeSaved, filter).writes == removes + adds;
    if req in removes {
      var savedIds := FilterStage(filter, api.savedContains, playlistIds, true).value;
      BatchRequestsFrom(RemoveAllOccurrences, pending, savedIds, req, x);
      assert false;
    }
    var ids := NonDuplicateCollectionTracks(api, collectionId, SetOf(playlistIds)).value;
    var unsavedIds := FilterStage(filter, api.savedContains, ids, false).value;
    BatchRequestsFrom(AddItems, pending, unsavedIds, req, x);
    FilterBySavedPartition(api.savedContains, ids, x);
  }

  /**
   * Every id `add_music` removes goes out of the pending playlist, only when
   * `remove_saved` is set, and was among the pending ids; under the intended
   * filter it was reported saved, under the filter as written unsaved.
   */
  lemma AddMusicRemovesOnlyPending(api: Api, pending: string, collectionId: string, removeSaved: bool,
                                   filter: SavedFilter, req: Request, x: Id)
    requires req in AddMusicRun(api, pending, collectionId, removeSaved, filter).writes
    requires req.op == RemoveAllOccurrences && x in req.ids
    ensures removeSaved && req.playlistId == pending
    ensures GetTracksIds(api, pending, Safe).Success?
    ensures x in GetTracksIds(api, pending, Safe).value
    ensures Reported(api.savedContains, GetTracksIds(api, pending, Safe).value, x, filter == Intended)
  {
    var playlistIds := GetTracksIds(api, pending, Safe).value;
    var removal := if removeSaved then SavedRemoval(api, pending, playlistIds, filter) else Success([]);
    var removes := removal.value;
    var writes := AddMusicRun(api, pending, collectionId, removeSaved, filter).writes;
    if req !in removes {
      assert false;
    }
    var savedIds := FilterStage(filter, api.savedContains, playlistIds, true).value;
    BatchRequestsFrom(RemoveAllOccurrences, pending, savedIds, req, x);
    FilterBySavedPartition(api.savedContains, playlistIds, x);
  }

  /**
   * Conversely, a completed run adds every new candidate its filter selects:
   * under the intended filter each one reported unsaved, under the filter as
   * written each one reported saved.
   */
  lemma AddMusicAddsAllNew(api: Api, pending: string, collectionId: string, removeSaved: bool, filter: SavedFilter, x: Id)
    requires AddMusicRun(api, pending, collectionId, removeSaved, filter).outcome == Completed
    requires GetTracksIds(api, pending, Safe).Success?
    requires NonDuplicateCollectionTracks(api, collectionId, SetOf(GetTracksIds(api, pending, Safe).value)).Success?
    requires Reported(api.savedContains,
      NonDuplicateCollectionTracks(api, collectionId, SetOf(GetTracksIds(api, pending, Safe).value)).value, x,
      filter == AsWritten)
    ensures exists req :: req in AddMusicRun(api, pending, collectionId, removeSaved, filter).writes &&
                          req.op == AddItems && req.playlistId == pending && x in req.ids
  {
    var playlistIds := GetTracksIds(api, pending, Safe).value;
    var removal := if removeSaved then SavedRemoval(api, pending, playlistIds, filter) else Success([]);
    var stage := AddStage(api, pending, collectionId, playlistIds, filter);
    assert removal.Success? && stage.Success?;
    assert AddMusicRun(api, pending, collectionId, removeSaved, filter).writes == removal.value + stage.value;
    var ids := NonDuplicateCollectionTracks(api, collectionId, SetOf(playlistIds)).value;
    var selected := FilterStage(filter, api.savedContains, ids, false).value;
    FilterBySavedPartition(api.savedContains, ids, x);
    assert x in selected;
    BatchRequestsCarry(AddItems, pending, selected, x);
  }

  /**
   * Conversely, with `remove_saved` set the purge removes every pending id
   * its filter selects: under the intended filter each one reported saved,
   * under the filter as written each one reported unsaved.
   */
  lemma AddMusicRemovesAllReported(api: Api, pending: string, collectionId: string, removeSaved: bool,
                                   filter: SavedFilter, x: Id)
    requires removeSaved && GetTracksIds(api, pending, Safe).Success?
    requires Reported(api.savedContains, GetTracksIds(api, pending, Safe).value, x, filter == Intended)
    ensures exists req :: req in AddMusicRun(api, pending, collectionId, removeSaved, filter).writes &&
                          req.op == RemoveAllOccurrences && req.playlistId == pending && x in req.ids
  {
    var playlistIds := GetTracksIds(api, pending, Safe).value;
    FilterBySavedPartition(api.savedContains, playlistIds, x);
    var selected := FilterStage(filter, api.savedContains, playlistIds, true).value;
    assert x in selected;
    var removes := BatchRequests(RemoveAllOccurrences, pending, selected);
    assert SavedRemoval(api, pending, playlistIds, filter) == Success(removes);
    var writes := AddMusicRun(api, pending, collectionId, removeSaved, filter).writes;
    assert writes[..|removes|] == removes;
    BatchRequestsCarry(RemoveAllOccurrences, pending, selected, x);
    var req :| req in removes && req.op == RemoveAllOccurrences && req.playlistId == pending && x in req.ids;
    assert req in writes[..|removes|];
  }

  /**
   * The exclusion set is the pending list read before the removal, so an id
   * removed is still excluded from the additions of the same run, whichever
   * filter the run uses.
   */
  lemma AddMusicNeverAddsWhatItRemoves(api: Api, pending: string, collectionId: string, removeSaved: bool,
                                       filter: SavedFilter, removal: Request, addition: Request, x: Id)
    requires removal in AddMusicRun(api, pending, collectionId, removeSaved, filter).writes
    requires addition in AddMusicRun(api, pending, collectionId, removeSaved, filter).writes
    requires removal.op == RemoveAllOccurrences && addition.op == AddItems && x in removal.ids
    ensures x !in addition.ids
  {
    AddMusicRemovesOnlyPending(api, pending, collectionId, removeSaved, filter, removal, x);
    if x in addition.ids {
      AddMusicAddsOnlyNew(api, pending, collectionId, removeSaved, filter, addition, x);
    }
  }

  /** No removal follows an addition. */
  ghost predicate RemovalsFirst(writes: seq<Request>)
  {
    forall i, j :: 0 <= i < j < |writes| && writes[i].op == AddItems ==> writes[j].op == AddItems
  }

  /** All removals are sent before any addition. */
  lemma AddMusicRemovesFirst(api: Api, pending: string, collectionId: string, removeSaved: bool, filter: SavedFilter)
    ensures RemovalsFirst(AddMusicRun(api, pending, collectionId, removeSaved, filter).writes)
  {
  }

  /** A one-id lookup answered with one flag gives that flag. */
  lemma SavedIdsOfOne(lookup: seq<Id> -> Option<seq<bool>>, x: Id, flag: bool)
    requires lookup([x]) == Some([flag])
    ensures SavedIds(lookup, [x]) == Success([flag])
  {
    assert ChunksOf([x], SavedLookupLimit) == [[x]];
    assert [[x]][1..] == [];
    assert SavedAnswers(lookup, []) == [];
    assert Padded(lookup([x])) == [flag];
    assert SavedAnswers(lookup, [[x]]) == Padded(lookup([x])) + SavedAnswers(lookup, []);
    assert SavedAnswers(lookup, ChunksOf([x], SavedLookupLimit)) == [flag];
  }

  /** One write request carries a single id. */
  lemma BatchRequestsOfOne(op: Op, pending: string, x: Id)
    ensures BatchRequests(op, pending, [x]) == [Request(op, pending, [x])]
    ensures BatchRequests(op, pending, []) == []
  {
  }

  /**
   * The run as written adds a saved track: a collection holding one track `x`
   * that is not pending and that the lookup reports saved gets `x` added by
   * the run as written, and nothing by the intended run.
   */
  lemma AddMusicAsWrittenAddsSaved(api: Api, pending: string, collectionId: string, x: Id)
    requires GetTracksIds(api, pending, Safe).Success? && x !in GetTracksIds(api, pending, Safe).value
    requires GetTracks(api, collectionId) == Success([Some(Track(Some(x)))])
    requires api.savedContains([x]) == Some([true])
    ensures AddMusicRun(api, pending, collectionId, false, AsWritten) == Run([Request(AddItems, pending, [x])], Completed)
    ensures AddMusicRun(api, pending, collectionId, false, Intended) == Run([], Completed)
  {
    var playlistIds := GetTracksIds(api, pending, Safe).value;
    var tracks := [Some(Track(Some(x)))];
    assert tracks[1..] == [];
    assert TracksIds(tracks, NotIn(SetOf(playlistIds))) == [x];
    assert NonDuplicateCollectionTracks(api, collectionId, SetOf(playlistIds)) == Success([x]);
    FilterBySavedAsWrittenReturnsSaved(api.savedContains, x);
    BatchRequestsOfOne(AddItems, pending, x);
    assert [] + [Request(AddItems, pending, [x])] == [Request(AddItems, pending, [x])];
  }

  /**
   * The run as written purges an unsaved track: with `remove_saved` set and one
   * pending track `y` that the lookup reports unsaved, the run as written first
   * removes `y`, and the intended run removes nothing.
   */
  lemma AddMusicAsWrittenPurgesUnsaved(api: Api, pending: string, collectionId: string, y: Id)
    requires GetTracksIds(api, pending, Safe) == Success([y])
    requires api.savedContains([y]) == Some([false])
    ensures |AddMusicRun(api, pending, collectionId, true, AsWritten).writes| > 0
    ensures AddMusicRun(api, pending, collectionId, true, AsWritten).writes[0] == Request(RemoveAllOccurrences, pending, [y])
    ensures forall r :: r in AddMusicRun(api, pending, collectionId, true, Intended).writes ==> r.op == AddItems
  {
    SavedIdsOfOne(api.savedContains, y, false);
    assert [y][1..] == [] && [false][1..] == [];
    assert SelectBySaved([y], [false], false) == [y];
    assert SelectBySaved([y], [false], true) == [];
    BatchRequestsOfOne(RemoveAllOccurrences, pending, y);
    assert SavedRemoval(api, pending, [y], AsWritten) == Success([Request(RemoveAllOccurrences, pending, [y])]);
    assert SavedRemoval(api, pending, [y], Intended) == Success([]);
    var stage := AddStage(api, pending, collectionId, [y], Intended);
    if stage.Success? {
      var ids := NonDuplicateCollectionTracks(api, collectionId, SetOf([y])).value;
      BatchRequestsCover(AddItems, pending, FilterBySaved(api.savedContains, ids, false).value);
      assert AddMusicRun(api, pending, collectionId, true, Intended).writes == [] + stage.value;
    }
  }

  /** The second half of `add_music`, from the candidate fetch to the add requests. */
  method AddNewCandidates(api: Api, remote: Remote, pending: string, collectionId: string, playlistIds: seq<Id>,
                          filter: SavedFilter)
    returns (r: Result<seq<Request>, Error>)
    modifies remote
    ensures r == AddStage(api, pending, collectionId, playlistIds, filter)
    ensures remote.log == old(remote.log) + (if r.Success? then Attempts(remote.rejects, r.value) else [])
  {
    var ids := NonDuplicateCollectionTracks(api, collectionId, SetOf(playlistIds));
    if ids.Failure? {
      return Failure(ids.error);
    }
    var unsavedIds := FilterStage(filter, api.savedContains, ids.value, false);
    if unsavedIds.Failure? {
      return Failure(unsavedIds.error);
    }
    AddSongsToPlaylist(remote, unsavedIds.value, pending);
    r := Success(BatchRequests(AddItems, pending, unsavedIds.value));
  }

  /** `add_music(collection_id, remove_saved)` built on `filter`, writing to the pending playlist `pending`. */
  method AddMusic(api: Api, remote: Remote, pending: string, collectionId: string, removeSaved: bool, filter: SavedFilter)
    returns (outcome: Outcome)
    modifies remote
    ensures outcome == AddMusicRun(api, pending, collectionId, removeSaved, filter).outcome
    ensures remote.log == old(remote.log) +
      Attempts(remote.rejects, AddMusicRun(api, pending, collectionId, removeSaved, filter).writes)
  {
    ghost var run := AddMusicRun(api, pending, collectionId, removeSaved, filter);
    var playlistIds := GetTracksIds(api, pending, Safe);
    if playlistIds.Failure? {
      assert run == Run([], Aborted(playlistIds.error));
      return Aborted(playlistIds.error);
    }
    ghost var removal := if removeSaved then SavedRemoval(api, pending, playlistIds.value, filter) else Success([]);
    assert run == match removal
      case Failure(e) => Run([], Aborted(e))
      case Success(removes) =>
        match AddStage(api, pending, collectionId, playlistIds.value, filter)
        case Failure(e) => Run(removes, Aborted(e))
        case Success(adds) => Run(removes + adds, Completed);
    var removes: seq<Request> := [];
    if removeSaved {
      var removal := RemoveSavedSongsOfPendingPlaylist(api, remote, pending, playlistIds.value, filter);
      if removal.Failure? {
        assert run == Run([], Aborted(removal.error));
        return Aborted(removal.error);
      }
      removes := removal.value;
    }
    ghost var afterRemoval := remote.log;
    assert afterRemoval == old(remote.log) + Attempts(remote.rejects, removes);
    var adds := AddNewCandidates(api, remote, pending, collectionId, playlistIds.value, filter);
    if adds.Failure? {
      assert run == Run(removes, Aborted(adds.error));
      return Aborted(adds.error);
    }
    assert run == Run(removes + adds.value, Completed);
    AttemptsAppend(remote.rejects, removes, adds.value);
    outcome := Completed;
  }
}
