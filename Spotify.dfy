/**
 * spotify.py: the remote-facing half of the pending-playlist engine.
 * The Spotify client is replaced by oracles: read endpoints are functions
 * held in an `Api` value, and the bulk write endpoint is a `Remote` object
 * that records every request it is sent.
 */
module Spotify {
  import opened Wrappers
  import opened Utils

  /** A catalogue id of a track. */
  type Id = string

  /** A track; its id is absent for local or restricted tracks. */
  datatype Track = Track(id: Option<Id>)

  /** A playlist slot; the track is absent when it was removed or is unavailable. */
  datatype Item = Item(track: Option<Track>)

  /**
   * One page of a cursor-paginated collection. `next` is the continuation:
   * `NoNext` when the page's `next` field is falsy, otherwise `Next(fetched)`
   * where `fetched` is what following it returns (`None` on a failed call).
   */
  datatype Response<T> = Response(items: seq<T>, next: Cursor<T>)
  datatype Cursor<T> = NoNext | Next(fetched: Option<Response<T>>)

  /** The failed assertions of spotify.py. */
  datatype Error =
    | MissingResponse                                // get_all_items: a response was None
    | SavedCountMismatch(answers: nat, requested: nat) // get_saved_ids: lengths differ

  /** The read endpoints of the client. */
  datatype Api = Api(
    playlistItems: string -> Option<Response<Item>>,       // first page of `playlist_items`
    albumTracks: string -> Option<Response<Option<Track>>>, // first page of `album_tracks`
    savedContains: seq<Id> -> Option<seq<bool>>)            // `current_user_saved_tracks_contains`

  // ---------------------------------------------------------------------------
  // Cursor pagination: get_all_items
  // ---------------------------------------------------------------------------

  function Prepend<T>(prefix: seq<T>, r: Result<seq<T>, Error>): Result<seq<T>, Error>
  {
    match r
    case Success(rest) => Success(prefix + rest)
    case Failure(e) => Failure(e)
  }

  /** Reference definition: the items of a page followed by those reached through its cursor. */
  function AllItems<T>(response: Option<Response<T>>): (r: Result<seq<T>, Error>)
    ensures r.Failure? ==> r.error == MissingResponse
    ensures response.None? ==> r.Failure?
  {
    match response
    case None => Failure(MissingResponse)
    case Some(page) =>
      match page.next
      case NoNext => Success(page.items)
      case Next(fetched) => Prepend(page.items, AllItems(fetched))
  }

  /** What following the cursor of `page` yields. */
  function AfterPage<T>(page: Response<T>): Result<seq<T>, Error>
  {
    match page.next
    case NoNext => Success([])
    case Next(fetched) => AllItems(fetched)
  }

  /** A page's items come before what its cursor leads to. */
  lemma AllItemsUnfold<T>(page: Response<T>)
    ensures AllItems(Some(page)) == Prepend(page.items, AfterPage(page))
  {
    assert page.items + [] == page.items;
  }

  lemma PrependTwice<T>(a: seq<T>, b: seq<T>, r: Result<seq<T>, Error>)
    ensures Prepend(a, Prepend(b, r)) == Prepend(a + b, r)
  {
    if r.Success? {
      assert a + (b + r.value) == (a + b) + r.value;
    }
  }

  function ItemsOf<T>(pages: seq<Response<T>>): (r: seq<seq<T>>)
    ensures |r| == |pages|
  {
    seq(|pages|, j requires 0 <= j < |pages| => pages[j].items)
  }

  /**
   * `get_all_items(response)`. `pages` is the trace of the responses the loop
   * read, in order: it starts at the first response and each one was reached
   * by following the previous one's cursor.
   */
  method GetAllItems<T>(first: Option<Response<T>>) returns (r: Result<seq<T>, Error>, ghost pages: seq<Response<T>>)
    ensures r == AllItems(first)
    ensures first.None? ==> pages == [] && r == Failure(MissingResponse)
    ensures first.Some? ==> |pages| > 0 && pages[0] == first.value
    ensures forall j :: 0 < j < |pages| ==> pages[j - 1].next == Next(Some(pages[j]))
    ensures r.Success? ==> pages[|pages| - 1].next == NoNext && r.value == Flatten(ItemsOf(pages))
    ensures r.Failure? ==> r.error == MissingResponse && (first.None? || pages[|pages| - 1].next == Next(None))
  {
    if first.None? {
      return Failure(MissingResponse), [];
    }
    var response := first.value;
    var items := response.items;
    pages := [response];
    assert Flatten(ItemsOf(pages)) == items;
    AllItemsUnfold(response);
    while response.next.Next?
      invariant |pages| > 0 && pages[0] == first.value && pages[|pages| - 1] == response
      invariant forall j :: 0 < j < |pages| ==> pages[j - 1].next == Next(Some(pages[j]))
      invariant items == Flatten(ItemsOf(pages))
      invariant AllItems(first) == Prepend(items, AfterPage(response))
      decreases response
    {
      var fetched := response.next.fetched;
      if fetched.None? {
        return Failure(MissingResponse), pages;
      }
      AllItemsUnfold(fetched.value);
      PrependTwice(items, fetched.value.items, AfterPage(fetched.value));
      response := fetched.value;
      FlattenAppend(ItemsOf(pages), [response.items]);
      assert ItemsOf(pages + [response]) == ItemsOf(pages) + [response.items];
      pages := pages + [response];
      items := items + response.items;
    }
    assert items + [] == items;
    r := Success(items);
  }

  /** `[item['track'] for item in items if item['track'] is not None]`. */
  function PlaylistTracks(items: seq<Item>): (tracks: seq<Track>)
    ensures |tracks| <= |items|
    ensures forall t :: t in tracks <==> exists i :: 0 <= i < |items| && items[i].track == Some(t)
  {
    if |items| == 0 then []
    else
      var rest := PlaylistTracks(items[1..]);
      assert forall i :: 1 <= i < |items| ==> items[1..][i - 1] == items[i];
      match items[0].track
      case None => rest
      case Some(t) => [t] + rest
  }

  /** The non-None tracks of a playlist keep their order: filtering distributes over concatenation. */
  lemma {:induction false} PlaylistTracksAppend(a: seq<Item>, b: seq<Item>)
    ensures PlaylistTracks(a + b) == PlaylistTracks(a) + PlaylistTracks(b)
  {
    if |a| > 0 {
      assert (a + b)[1..] == a[1..] + b;
      PlaylistTracksAppend(a[1..], b);
    } else {
      assert a + b == b;
    }
  }

  /**
   * `get_playlist_tracks(playlist_id)`: fails exactly when paging the playlist
   * does; otherwise holds exactly the tracks of its non-empty slots.
   */
  function GetPlaylistTracks(api: Api, playlistId: string): (r: Result<seq<Track>, Error>)
    ensures r.Success? <==> AllItems(api.playlistItems(playlistId)).Success?
    ensures r.Failure? ==> r.error == MissingResponse
    ensures r.Success? ==> forall t :: t in r.value <==>
      exists i :: 0 <= i < |AllItems(api.playlistItems(playlistId)).value| &&
        AllItems(api.playlistItems(playlistId)).value[i].track == Some(t)
  {
    match AllItems(api.playlistItems(playlistId))
    case Success(items) => Success(PlaylistTracks(items))
    case Failure(e) => Failure(e)
  }

  /**
   * `get_album_tracks(album_id)`: the raw items, nothing filtered. It fails
   * only on a missing response, and a single page gives its items unchanged.
   */
  function GetAlbumTracks(api: Api, albumId: string): (r: Result<seq<Option<Track>>, Error>)
    ensures api.albumTracks(albumId).None? ==> r == Failure(MissingResponse)
    ensures r.Failure? ==> r.error == MissingResponse
    ensures api.albumTracks(albumId).Some? && api.albumTracks(albumId).value.next == NoNext ==>
      r == Success(api.albumTracks(albumId).value.items)
  {
    AllItems(api.albumTracks(albumId))
  }

  // ---------------------------------------------------------------------------
  // Substring dispatch: get_tracks
  // ---------------------------------------------------------------------------

  /** Python's `sub in s` on strings: `sub` starts some suffix of `s`. */
  function Contains(s: string, sub: string): (b: bool)
    ensures b <==> exists i :: 0 <= i <= |s| && sub <= s[i..]
    decreases |s|
  {
    if sub <= s then
      assert s[0..] == s;
      true
    else if |s| == 0 then false
    else
      var b := Contains(s[1..], sub);
      assert forall i :: 1 <= i <= |s| ==> s[1..][i - 1..] == s[i..];
      b
  }

  datatype Kind = PlaylistKind | AlbumKind

  /** The fetch strategy `get_tracks` picks for an id: "playlist" wins, then "album", else playlist. */
  function Route(collectionId: string): (k: Kind)
    ensures k == AlbumKind <==> !Contains(collectionId, "playlist") && Contains(collectionId, "album")
  {
    if Contains(collectionId, "playlist") then PlaylistKind
    else if Contains(collectionId, "album") then AlbumKind
    else PlaylistKind
  }

  function SomeAll<T>(s: seq<T>): (r: seq<Option<T>>)
    ensures |r| == |s| && forall i :: 0 <= i < |s| ==> r[i] == Some(s[i])
  {
    seq(|s|, i requires 0 <= i < |s| => Some(s[i]))
  }

  /**
   * `get_tracks(collection_id)`: the tracks of a playlist or of an album. An
   * album route gives the album's raw items; a playlist route fails exactly
   * when paging the playlist fails and never yields a missing track.
   */
  function GetTracks(api: Api, collectionId: string): (r: Result<seq<Option<Track>>, Error>)
    ensures Route(collectionId) == AlbumKind ==> r == AllItems(api.albumTracks(collectionId))
    ensures Route(collectionId) == PlaylistKind ==>
      (r.Success? <==> AllItems(api.playlistItems(collectionId)).Success?)
    ensures Route(collectionId) == PlaylistKind && r.Success? ==>
      forall t :: t in r.value ==> t.Some? && t.value in GetPlaylistTracks(api, collectionId).value
    ensures Route(collectionId) == PlaylistKind && r.Success? ==>
      |r.value| == |GetPlaylistTracks(api, collectionId).value| &&
      forall i :: 0 <= i < |r.value| ==> r.value[i] == Some(GetPlaylistTracks(api, collectionId).value[i])
  {
    match Route(collectionId)
    case AlbumKind => GetAlbumTracks(api, collectionId)
    case PlaylistKind =>
      match GetPlaylistTracks(api, collectionId)
      case Success(tracks) => Success(SomeAll(tracks))
      case Failure(e) => Failure(e)
  }

  // ---------------------------------------------------------------------------
  // Saved-status lookup: get_saved_ids
  // ---------------------------------------------------------------------------

  /** The most ids one saved-status lookup may carry. */
  const SavedLookupLimit: nat := 50

  /** A None answer stands for 50 `True`s, whatever the size of the chunk. */
  function Padded(answer: Option<seq<bool>>): seq<bool>
  {
    match answer
    case None => seq(SavedLookupLimit, _ => true)
    case Some(flags) => flags
  }

  /** The answers to the lookups of `chunks`, concatenated in order. */
  function SavedAnswers(lookup: seq<Id> -> Option<seq<bool>>, chunks: seq<seq<Id>>): seq<bool>
  {
    if |chunks| == 0 then [] else Padded(lookup(chunks[0])) + SavedAnswers(lookup, chunks[1..])
  }

  /** Reference definition of `get_saved_ids(ids)`. */
  function SavedIds(lookup: seq<Id> -> Option<seq<bool>>, ids: seq<Id>): (r: Result<seq<bool>, Error>)
    ensures r.Success? ==> |r.value| == |ids|
    ensures r.Failure? ==> r.error.SavedCountMismatch? && r.error.requested == |ids| && r.error.answers != |ids|
  {
    var answers := SavedAnswers(lookup, ChunksOf(ids, SavedLookupLimit));
    if |answers| != |ids| then Failure(SavedCountMismatch(|answers|, |ids|)) else Success(answers)
  }

  /** `get_saved_ids(ids)`: one lookup per chunk of at most 50 ids, then the length check. */
  method GetSavedIds(lookup: seq<Id> -> Option<seq<bool>>, ids: seq<Id>) returns (r: Result<seq<bool>, Error>)
    ensures r == SavedIds(lookup, ids)
  {
    var chunks := CreateChunks(ids, SavedLookupLimit);
    var savedIds: seq<bool> := [];
    for i := 0 to |chunks|
      invariant savedIds + SavedAnswers(lookup, chunks[i..]) == SavedAnswers(lookup, chunks)
    {
      assert chunks[i..][1..] == chunks[i + 1..];
      savedIds := savedIds + Padded(lookup(chunks[i]));
    }
    assert chunks[|chunks|..] == [];
    assert savedIds == SavedAnswers(lookup, ChunksOf(ids, SavedLookupLimit));
    if |savedIds| != |ids| {
      return Failure(SavedCountMismatch(|savedIds|, |ids|));
    }
    r := Success(savedIds);
  }

  /**
   * When every chunk's answer has the chunk's length, the lookup succeeds and
   * flag j is the answer for ids[j]: position j % 50 of the answer to chunk j / 50.
   */
  lemma {:induction false} SavedIdsAligned(lookup: seq<Id> -> Option<seq<bool>>, ids: seq<Id>)
    requires forall c :: c in ChunksOf(ids, SavedLookupLimit) ==> |Padded(lookup(c))| == |c|
    ensures SavedIds(lookup, ids).Success?
    ensures forall j :: 0 <= j < |ids| ==>
      j / SavedLookupLimit < |ChunksOf(ids, SavedLookupLimit)| &&
      j % SavedLookupLimit < |Padded(lookup(ChunksOf(ids, SavedLookupLimit)[j / SavedLookupLimit]))| &&
      SavedIds(lookup, ids).value[j] == Padded(lookup(ChunksOf(ids, SavedLookupLimit)[j / SavedLookupLimit]))[j % SavedLookupLimit]
  {
    SavedAnswersLength(lookup, ids);
    forall j | 0 <= j < |ids|
      ensures j / SavedLookupLimit < |ChunksOf(ids, SavedLookupLimit)|
      ensures j % SavedLookupLimit < |Padded(lookup(ChunksOf(ids, SavedLookupLimit)[j / SavedLookupLimit]))|
      ensures SavedIds(lookup, ids).value[j] ==
        Padded(lookup(ChunksOf(ids, SavedLookupLimit)[j / SavedLookupLimit]))[j % SavedLookupLimit]
    {
      SavedAnswerAt(lookup, ids, j);
    }
  }

  lemma DivModSmall(j: int)
    requires 0 <= j < 50
    ensures j / 50 == 0 && j % 50 == j
  {
  }

  lemma DivModStep(j: int)
    requires 50 <= j
    ensures (j - 50) / 50 == j / 50 - 1 && (j - 50) % 50 == j % 50
  {
  }

  /** When every chunk's answer has the chunk's length, there is one answer per id. */
  lemma {:induction false} SavedAnswersLength(lookup: seq<Id> -> Option<seq<bool>>, ids: seq<Id>)
    requires forall c :: c in ChunksOf(ids, SavedLookupLimit) ==> |Padded(lookup(c))| == |c|
    ensures |SavedAnswers(lookup, ChunksOf(ids, SavedLookupLimit))| == |ids|
    decreases |ids|
  {
    var chunks := ChunksOf(ids, SavedLookupLimit);
    if |ids| == 0 {
    } else if |ids| <= SavedLookupLimit {
      assert chunks == [ids] && chunks[1..] == [];
      assert ids in chunks;
    } else {
      var rest := ChunksOf(ids[SavedLookupLimit..], SavedLookupLimit);
      assert chunks == [ids[..SavedLookupLimit]] + rest;
      assert chunks[1..] == rest;
      assert ids[..SavedLookupLimit] in chunks;
      forall c | c in rest ensures |Padded(lookup(c))| == |c| {
        assert c in chunks;
      }
      SavedAnswersLength(lookup, ids[SavedLookupLimit..]);
    }
  }

  /** Answer j is position j % 50 of the answer to chunk j / 50. */
  lemma {:induction false} SavedAnswerAt(lookup: seq<Id> -> Option<seq<bool>>, ids: seq<Id>, j: nat)
    requires forall c :: c in ChunksOf(ids, SavedLookupLimit) ==> |Padded(lookup(c))| == |c|
    requires j < |ids|
    ensures |SavedAnswers(lookup, ChunksOf(ids, SavedLookupLimit))| == |ids|
    ensures j / SavedLookupLimit < |ChunksOf(ids, SavedLookupLimit)|
    ensures j % SavedLookupLimit < |Padded(lookup(ChunksOf(ids, SavedLookupLimit)[j / SavedLookupLimit]))|
    ensures SavedAnswers(lookup, ChunksOf(ids, SavedLookupLimit))[j]
        == Padded(lookup(ChunksOf(ids, SavedLookupLimit)[j / SavedLookupLimit]))[j % SavedLookupLimit]
    decreases |ids|
  {
    SavedAnswersLength(lookup, ids);
    var chunks := ChunksOf(ids, SavedLookupLimit);
    if |ids| <= SavedLookupLimit {
      assert chunks == [ids] && chunks[1..] == [];
      assert ids in chunks;
      assert SavedAnswers(lookup, chunks) == Padded(lookup(ids)) + SavedAnswers(lookup, []);
      DivModSmall(j);
    } else {
      var rest := ChunksOf(ids[SavedLookupLimit..], SavedLookupLimit);
      assert chunks == [ids[..SavedLookupLimit]] + rest;
      assert chunks[1..] == rest;
      assert ids[..SavedLookupLimit] in chunks;
      var head := Padded(lookup(ids[..SavedLookupLimit]));
      assert SavedAnswers(lookup, chunks) == head + SavedAnswers(lookup, rest);
      if j < SavedLookupLimit {
        DivModSmall(j);
      } else {
        forall c | c in rest ensures |Padded(lookup(c))| == |c| {
          assert c in chunks;
        }
        SavedAnswerAt(lookup, ids[SavedLookupLimit..], j - SavedLookupLimit);
        DivModStep(j);
        assert chunks[j / SavedLookupLimit] == rest[(j - SavedLookupLimit) / SavedLookupLimit];
      }
    }
  }


  /** A single chunk (1 to 50 ids) succeeds exactly when its answer has its length. */
  lemma SavedIdsSingleChunk(lookup: seq<Id> -> Option<seq<bool>>, ids: seq<Id>)
    requires 0 < |ids| <= SavedLookupLimit
    ensures SavedIds(lookup, ids).Success? <==> |Padded(lookup(ids))| == |ids|
  {
    assert ChunksOf(ids, SavedLookupLimit) == [ids];
    assert SavedAnswers(lookup, [ids]) == Padded(lookup(ids)) + SavedAnswers(lookup, []);
  }

  /** So a None answer for fewer than 50 ids makes the whole lookup fail. */
  lemma SavedIdsMissingShortChunk(lookup: seq<Id> -> Option<seq<bool>>, ids: seq<Id>)
    requires 0 < |ids| < SavedLookupLimit && lookup(ids).None?
    ensures SavedIds(lookup, ids) == Failure(SavedCountMismatch(SavedLookupLimit, |ids|))
  {
    assert ChunksOf(ids, SavedLookupLimit) == [ids];
    assert SavedAnswers(lookup, [ids]) == Padded(lookup(ids)) + SavedAnswers(lookup, []);
  }

  // ---------------------------------------------------------------------------
  // Chunked, failure-tolerant writes: add_songs_to_playlist, remove_songs_from_playlist
  // ---------------------------------------------------------------------------

  /** The most ids one bulk write may carry. */
  const WriteLimit: nat := 100

  datatype Op = AddItems | RemoveAllOccurrences

  /** One bulk write call: `playlist_add_items` or `playlist_remove_all_occurrences_of_items`. */
  datatype Request = Request(op: Op, playlistId: string, ids: seq<Id>)

  /** A request as the remote saw it, and whether it raised. */
  datatype Attempt = Attempt(request: Request, rejected: bool)

  /** The write endpoint. `log` records every request sent, in order. */
  class Remote {
    ghost var log: seq<Attempt>
    const rejects: Request -> bool

    constructor (rejects: Request -> bool)
      ensures log == [] && this.rejects == rejects
    {
      log := [];
      this.rejects := rejects;
    }

    /** Sends one request; `accepted` is false when the call raises. */
    method Submit(request: Request) returns (accepted: bool)
      modifies this
      ensures log == old(log) + [Attempt(request, rejects(request))]
      ensures accepted == !rejects(request)
    {
      accepted := !rejects(request);
      log := log + [Attempt(request, !accepted)];
    }
  }

  /** The requests a chunked write sends: one per chunk of at most 100 ids, in order. */
  function BatchRequests(op: Op, playlistId: string, ids: seq<Id>): (reqs: seq<Request>)
    ensures |reqs| == |ChunksOf(ids, WriteLimit)|
  {
    var chunks := ChunksOf(ids, WriteLimit);
    seq(|chunks|, j requires 0 <= j < |chunks| => Request(op, playlistId, chunks[j]))
  }

  function Attempts(rejects: Request -> bool, reqs: seq<Request>): (r: seq<Attempt>)
    ensures |r| == |reqs|
  {
    seq(|reqs|, j requires 0 <= j < |reqs| => Attempt(reqs[j], rejects(reqs[j])))
  }

  lemma AttemptsAppend(rejects: Request -> bool, a: seq<Request>, b: seq<Request>)
    ensures Attempts(rejects, a + b) == Attempts(rejects, a) + Attempts(rejects, b)
  {
  }

  function IdsOf(reqs: seq<Request>): (r: seq<seq<Id>>)
    ensures |r| == |reqs|
  {
    seq(|reqs|, j requires 0 <= j < |reqs| => reqs[j].ids)
  }

  /**
   * The requests of a chunked write cover all ids in order, each carries
   * between 1 and 100 of them, and there are ceil(len / 100) of them.
   */
  lemma BatchRequestsCover(op: Op, playlistId: string, ids: seq<Id>)
    ensures Flatten(IdsOf(BatchRequests(op, playlistId, ids))) == ids
    ensures |BatchRequests(op, playlistId, ids)| == CeilDiv(|ids|, WriteLimit)
    ensures forall req :: req in BatchRequests(op, playlistId, ids) ==>
      req.op == op && req.playlistId == playlistId && 0 < |req.ids| <= WriteLimit
  {
    var reqs := BatchRequests(op, playlistId, ids);
    assert IdsOf(reqs) == ChunksOf(ids, WriteLimit);
    FlattenChunks(ids, WriteLimit);
    ChunksOfCount(ids, WriteLimit);
    ChunkSizes(ids, WriteLimit);
  }

  /** Every id a request of a chunked write carries is one of the ids written. */
  /** Every id given to a chunked write is carried by one of its requests. */
  lemma BatchRequestsCarry(op: Op, playlistId: string, ids: seq<Id>, x: Id)
    requires x in ids
    ensures exists req ::
      req in BatchRequests(op, playlistId, ids) && req.op == op && req.playlistId == playlistId && x in req.ids
  {
    var reqs := BatchRequests(op, playlistId, ids);
    BatchRequestsCover(op, playlistId, ids);
    FlattenMember(IdsOf(reqs), x);
    var j :| 0 <= j < |IdsOf(reqs)| && x in IdsOf(reqs)[j];
    assert reqs[j] in reqs;
  }

  lemma BatchRequestsFrom(op: Op, playlistId: string, ids: seq<Id>, req: Request, x: Id)
    requires req in BatchRequests(op, playlistId, ids) && x in req.ids
    ensures req.op == op && req.playlistId == playlistId && x in ids
  {
    var reqs := BatchRequests(op, playlistId, ids);
    var j :| 0 <= j < |reqs| && reqs[j] == req;
    ChunksOfAt(ids, WriteLimit, j);
    var lo := Min(j * WriteLimit, |ids|);
    var hi := Min(j * WriteLimit + WriteLimit, |ids|);
    var i :| 0 <= i < |req.ids| && req.ids[i] == x;
    assert x == ids[lo + i];
  }

  /**
   * The shared loop of both write functions: one request per chunk, a
   * rejected request is reported and the loop goes on to the next chunk.
   */
  method SubmitInChunks(remote: Remote, op: Op, ids: seq<Id>, playlistId: string)
    modifies remote
    ensures remote.log == old(remote.log) + Attempts(remote.rejects, BatchRequests(op, playlistId, ids))
  {
    var chunks := CreateChunks(ids, WriteLimit);
    ghost var reqs := BatchRequests(op, playlistId, ids);
    for i := 0 to |chunks|
      invariant remote.log == old(remote.log) + Attempts(remote.rejects, reqs[..i])
    {
      var accepted := remote.Submit(Request(op, playlistId, chunks[i]));
      assert Attempts(remote.rejects, reqs[..i + 1]) == Attempts(remote.rejects, reqs[..i]) + [Attempt(reqs[i], remote.rejects(reqs[i]))];
    }
    assert reqs[..|chunks|] == reqs;
  }

  /** `add_songs_to_playlist(ids, playlist_id)`. */
  method AddSongsToPlaylist(remote: Remote, ids: seq<Id>, playlistId: string)
    modifies remote
    ensures remote.log == old(remote.log) + Attempts(remote.rejects, BatchRequests(AddItems, playlistId, ids))
  {
    SubmitInChunks(remote, AddItems, ids, playlistId);
  }

  /** `remove_songs_from_playlist(ids, playlist_id)`. */
  method RemoveSongsFromPlaylist(remote: Remote, ids: seq<Id>, playlistId: string)
    modifies remote
    ensures remote.log == old(remote.log) + Attempts(remote.rejects, BatchRequests(RemoveAllOccurrences, playlistId, ids))
  {
    SubmitInChunks(remote, RemoveAllOccurrences, ids, playlistId);
  }
}
