# Pending-playlist track engine, modelled in Dafny

This project models the core of a small Spotify automation tool: the engine behind
`add_music`, which copies the new, not-yet-saved tracks of a playlist or album into a
"pending" playlist. It covers these parts:

- **Chunker** (`utils.py`, module `Utils`): `create_chunks` splits a list into consecutive
  slices of at most `chunk_size` elements. The reference definition is `ChunksOf`, and
  `CreateChunks` is the source's loop over `ceil(len / chunk_size)` chunk indices.
- **Cursor paginator** (`spotify.py`, module `Spotify`): `get_all_items` follows `next`
  until it is falsy. A missing response is a failed assertion, not a partial result.
  The remote pages are a finite chain of `Response`/`Cursor` values, where `Next(fetched)`
  holds what `spotify.next` returns.
- **Offset paginator** (`main.py`, module `OffsetPaging`): `get_playlist_items` asks again
  at `offset = len(items)` until it holds `total` items. It returns what it has when a
  follow-up response is missing. The endpoint is an oracle from offset to optional page.
- **Dispatch** (`get_tracks`): a substring test on the collection id picks the playlist or
  the album fetch.
- **Saved-status lookup** (`get_saved_ids`): one lookup per chunk of at most 50 ids. A
  missing answer becomes 50 `True`s, and a length check aborts the run.
- **Filters** (`add_music.py`, module `AddMusic`): `id_is_safe`, `get_tracks_ids`,
  `non_duplicate_collection_tracks` and `filter_by_saved`. They are order-preserving filters,
  and repeated candidates are not collapsed.
- **Batch mutator** (`add_songs_to_playlist`, `remove_songs_from_playlist`): one request per
  chunk of at most 100 ids. A rejected request is reported and skipped. The write endpoint
  is the class `Remote`, whose ghost `log` records every request in order with whether it
  was rejected.
- **Pipeline** (`add_music`): `AddMusicRun` is the reference definition of the requests
  a run sends and how the run ends. The method `AddMusic` runs the stages in the
  source's order. Both take a `SavedFilter`: `AsWritten` is `filter_by_saved` as
  add_music.py defines it, and `Intended` is the selection its callers are written for
  (see Findings). The pipeline lemmas cover both variants.

The read endpoints are the fields of an `Api` value: `playlist_items`, `album_tracks` and
`current_user_saved_tracks_contains`. The pending playlist id (`PENDING_PLAYLIST`, read from
the environment) is the parameter `pending`. The failed `assert`s of the source are
`Failure` results (`Error.MissingResponse`, `Error.SavedCountMismatch`), and a run that
hits one ends with `Outcome.Aborted`.

Behaviour of the code worth knowing:

- Candidate ids are kept in order and are not made unique: a track that occurs twice in
  the collection is added twice (`NotInKeepsRepeats`).
- A missing saved-status answer stands for 50 `True`s whatever the chunk size. For a list
  of fewer than 50 ids a missing answer therefore fails the length check and aborts the
  run (`SavedIdsMissingShortChunk`). Over several chunks the answers are only checked by
  their total length. So a short answer for one chunk and the padding of another can
  cancel out: 60 ids answered with 10 flags, then nothing, give 60 flags and pass.
- `filter_by_saved` selects the opposite of what its callers expect (see Findings).
  Under `AsWritten` the run adds the new candidates reported saved and purges the
  pending tracks reported unsaved. Under `Intended` it does the reverse.

## Model

| member | source | states |
|---|---|---|
| `Utils.CeilDiv` | utils.py:14 | the chunk count is the least q with len <= q * chunk_size, i.e. ceil(len / chunk_size) |
| `Utils.ChunksOfCount` | utils.py:14-15 | the partition has ceil(len / chunk_size) chunks; empty input gives zero chunks and only empty input does |
| `Utils.ChunksOfAt` | utils.py:15-18 | chunk i is the clamped slice `arr[i*chunk_size : i*chunk_size + chunk_size]` and starts inside the input |
| `Utils.FlattenChunks` | utils.py:14-18 | concatenating the chunks in order gives back the input: nothing dropped, duplicated or reordered |
| `Utils.ChunkSizes` | utils.py:15-18 | every chunk is non-empty and at most chunk_size long; all but the last are exactly chunk_size long |
| `Utils.ExactMultiple` | utils.py:14-18 | for len = m * chunk_size there are exactly m full chunks and no empty trailing chunk |
| `Utils.CreateChunks` | utils.py:9-18 | the source loop over chunk indices yields exactly the reference partition (chunk_size must be positive) |
| `Spotify.GetAllItems` | spotify.py:36-43 | the result is the first page's items followed by each page reached through `next`, in order; fetching goes on exactly while `next` is truthy; a missing first or later response is a failure, never a partial list |
| `Spotify.PlaylistTracks` | spotify.py:48 | the result holds exactly the non-None tracks of the items and is no longer than the items |
| `Spotify.PlaylistTracksAppend` | spotify.py:48 | the filter keeps order: it distributes over concatenation |
| `Spotify.GetPlaylistTracks` | spotify.py:45-48 | fails (with a missing response) exactly when paging the playlist fails; otherwise returns exactly the tracks of its non-empty slots |
| `Spotify.GetAlbumTracks` | spotify.py:50-52 | the album's paged items, unfiltered: a missing first response fails, only a missing response fails, and a single page gives its items |
| `Spotify.Contains` | spotify.py:55-57 | `sub in s` holds exactly when some suffix of s starts with sub |
| `Spotify.Route` | spotify.py:54-59 | an id goes to the album fetch exactly when it does not contain "playlist" and contains "album"; every other id goes to the playlist fetch |
| `Spotify.GetTracks` | spotify.py:54-59 | an album route gives the album's paged items; a playlist route fails exactly when paging the playlist fails and otherwise gives `get_playlist_tracks(collection_id)` in order, each track wrapped as present |
| `Spotify.SavedIds` | spotify.py:61-69 | a successful lookup has exactly one flag per requested id; otherwise it fails with the two differing lengths |
| `Spotify.GetSavedIds` | spotify.py:61-69 | the loop over chunks of 50, padding a missing answer with 50 `True`s, followed by the length check, gives the reference result |
| `Spotify.SavedIdsAligned` | spotify.py:63-65 | when every chunk's answer has the chunk's length, the lookup succeeds and flag j is answer j % 50 of chunk j / 50 |
| `Spotify.SavedIdsSingleChunk` | spotify.py:64-68 | for 1 to 50 ids the lookup succeeds exactly when the (padded) answer has their length; e.g. 10 ids and 9 answers fail |
| `Spotify.SavedIdsMissingShortChunk` | spotify.py:65-68 | a missing answer for fewer than 50 ids makes the lookup fail with 50 answers against the requested count |
| `Spotify.Remote.Submit` | spotify.py:74-77 | one bulk write call: it is logged in order, and it is rejected exactly when the remote rejects that request |
| `Spotify.BatchRequestsCover` | spotify.py:73-75 | the requests of a chunked write carry all ids in order, between 1 and 100 each, ceil(len / 100) of them, all with the given operation and playlist |
| `Spotify.BatchRequestsFrom` | spotify.py:73-75 | every id a chunked write sends is one of the ids given |
| `Spotify.BatchRequestsCarry` | spotify.py:73-75 | every id given to a chunked write is carried by one of its requests, with the given operation and playlist |
| `Spotify.SubmitInChunks` | spotify.py:73-77 | every chunk's request is sent, in order, whether or not earlier ones were rejected, and nothing else is sent |
| `Spotify.AddSongsToPlaylist` | spotify.py:71-77 | sends one add request per chunk of at most 100 ids, in order, regardless of rejections |
| `Spotify.RemoveSongsFromPlaylist` | spotify.py:79-85 | sends one remove-all-occurrences request per chunk of at most 100 ids, in order, regardless of rejections |
| `AddMusic.IdIsSafe` | add_music.py:11-14 | false for a missing track; otherwise true exactly when the track's id is present |
| `AddMusic.Acceptable` | add_music.py:32-35 | a track accepted by either filter has an id |
| `AddMusic.TracksIds` | add_music.py:22-26 | the comprehension returns at most one id per track |
| `AddMusic.TracksIdsMembership` | add_music.py:22-26 | an id is returned exactly when some accepted track carries it |
| `AddMusic.TracksIdsAppend` | add_music.py:22-26 | the ids keep the tracks' order: the comprehension distributes over concatenation |
| `AddMusic.NotInKeepsRepeats` | add_music.py:32-35 | excluding a set removes every occurrence of its ids and only those; any other id is kept as often as it occurs |
| `AddMusic.NotInExample` | add_music.py:32-36 | candidates [a, b, c, a] with {b} excluded give [a, c, a] |
| `AddMusic.GetTracksIds` | add_music.py:16-26 | fails exactly when fetching the collection fails; never more ids than tracks |
| `AddMusic.NonDuplicateCollectionTracks` | add_music.py:28-36 | no returned id is in `playlist_ids`; fails exactly when the plain id listing fails |
| `AddMusic.SelectBySavedAsWritten` | add_music.py:40-44 | the comprehension as written keeps ids whose flag differs from `get_saved`; never more ids than given |
| `AddMusic.SelectBySavedAsWrittenInverted` | add_music.py:40-44 | the selection as written equals the intended selection with `get_saved` negated |
| `AddMusic.FilterBySavedAsWritten` | add_music.py:38-44 | `filter_by_saved` as written fails exactly when the lookup does, and otherwise returns the intended selection for the negated flag |
| `AddMusic.FilterBySavedAsWrittenReturnsSaved` | add_music.py:38-44 | for one id reported saved, the default call as written returns it and the `get_saved=True` call does not; the intended filter does the reverse |
| `AddMusic.SelectBySaved` | add_music.py:40-44 | the intended selection, ids whose flag equals `get_saved`; never more ids than given |
| `AddMusic.SelectBySavedMembership` | add_music.py:40-44 | an id is selected exactly when some position holding it has the requested flag |
| `AddMusic.SelectBySavedAppend` | add_music.py:40-44 | the selection keeps the input order: selecting from a concatenation is the concatenation of the selections |
| `AddMusic.SelectBySavedPartition` | add_music.py:40-44 | the saved and the unsaved selections together hold each id exactly as often as the input |
| `AddMusic.FilterBySaved` | add_music.py:38-44 | fails exactly when the lookup fails; otherwise returns only ids from the input |
| `AddMusic.FilterBySavedPartition` | add_music.py:38-44 | the two calls succeed together; `get_saved=True` returns exactly the ids reported saved, the default exactly those reported unsaved, and together they partition the input |
| `AddMusic.FilterStage` | add_music.py:38-44 | the filter as written is the intended filter with `get_saved` negated, lookup failures included |
| `AddMusic.RemoveSavedSongsOfPendingPlaylist` | add_music.py:49-53 | the purge sends the removal requests for the pending ids `filter_by_saved(ids, get_saved=True)` selects, in chunks of 100, or nothing when the lookup fails |
| `AddMusic.AddNewCandidates` | add_music.py:59-61 | the second half of the run sends the add requests for the new candidates `filter_by_saved(ids)` selects, or nothing when a stage fails |
| `AddMusic.AddMusic` | add_music.py:55-61 | the run sends exactly the reference requests in order and ends with the reference outcome, for either filter |
| `AddMusic.AddMusicAddsOnlyNew` | add_music.py:56-61 | every id added goes to the pending playlist and was absent from the pending ids read at the start; it was reported unsaved under the intended filter and saved under the filter as written |
| `AddMusic.AddMusicRemovesOnlyPending` | add_music.py:56-58 | ids are removed only when `remove_saved` is set, only from the pending playlist, and only if they were pending; they were reported saved under the intended filter and unsaved under the filter as written |
| `AddMusic.AddMusicAddsAllNew` | add_music.py:59-61 | a completed run adds every new candidate its filter selects (reported unsaved as intended, saved as written) to the pending playlist |
| `AddMusic.AddMusicRemovesAllReported` | add_music.py:49-58 | with `remove_saved` set, the run removes from the pending playlist every pending id its filter selects (reported saved as intended, unsaved as written), even when a later stage aborts |
| `AddMusic.AddMusicNeverAddsWhatItRemoves` | add_music.py:56-59 | the exclusion set is read before the purge, so no id removed is added back in the same run, with either filter |
| `AddMusic.AddMusicRemovesFirst` | add_music.py:57-61 | every removal request is sent before any add request |
| `AddMusic.AddMusicAsWrittenAddsSaved` | add_music.py:55-61 | one new candidate reported saved: the run as written adds it to the pending playlist, the intended run adds nothing |
| `AddMusic.AddMusicAsWrittenPurgesUnsaved` | add_music.py:49-58 | one pending track reported unsaved, with `remove_saved` set: the run as written first removes it, the intended run sends no removal |
| `OffsetPaging.FollowStep` | main.py:14-18 | the loop stops at `total` or at a missing response; otherwise it appends the page at offset `len(items)` and continues |
| `OffsetPaging.GetPlaylistItems` | main.py:9-19 | a missing first response gives []; follow-ups ask at offset = items held so far; pages are appended in order; the loop ends holding at least `total` items or returns the items so far at the first missing follow-up |
| `OffsetPaging.FollowExact` | main.py:13-19 | when every page below the total is served and none runs past it, exactly `total` items are accumulated |
| `OffsetPaging.ItemTracks` | main.py:23 | one track entry per item, in order, None tracks kept |
| `OffsetPaging.GetTracks` | main.py:21-23 | the tracks of the paginated items: same length and order as the items |

## Findings

| source | as written | input that shows it | evidently intended | confidence | as-written member | corrected member |
|---|---|---|---|---|---|---|
| add_music.py:38-44 | keeps `ids[idx]` when `saved != get_saved`, so `filter_by_saved(ids)` returns the saved ids and `filter_by_saved(ids, get_saved=True)` the unsaved ones | ids = [x] with the lookup answering [True]: `filter_by_saved([x])` returns [x], so `add_music` adds an already saved track and the purge removes the unsaved pending tracks | keep `ids[idx]` when `saved == get_saved`, as the callers' names (`unsaved_ids`, `get_saved=True` for the purge) expect | high (not executed) | `AddMusic.AddMusicAsWrittenAddsSaved` | `AddMusic.AddMusicAddsOnlyNew` |

## Left out

- Authentication, the client built at module level, argument parsing, `tqdm` progress bars
  and `print` diagnostics are left out; they are set-up and UI.
- The HTTP transport of the remote calls is left out. Each read endpoint is a function of
  its arguments, so repeated identical lookups get identical answers. Each write endpoint
  is the `Remote` oracle: it decides per request whether the call raises `SpotifyException`.
  Exceptions other than `SpotifyException` are not modelled.
- The read endpoints never raise in the model: `playlist_items`, `next`, `album_tracks` and
  `current_user_saved_tracks_contains` return a page, an answer or `None`. In the source
  they have no `try`, so a `SpotifyException` there propagates and aborts `add_music`,
  possibly after the purge's writes. In `get_playlist_items` such an exception also aborts,
  whereas the model's `None` gives the items gathered so far.
- The effect of a write on the remote playlist's contents is left out. The model records
  the requests sent and whether each was rejected.
- `Spotify.GetAllItems`: an endless chain of truthy `next` values (the source would loop
  forever) cannot be built, because pages are a finite datatype.
- `OffsetPaging.GetPlaylistItems`: it requires `Paginates`, i.e. every page served at an
  offset below `total` is missing or non-empty. This also constrains offsets the loop never
  requests. An empty page loops the source forever only at an offset the loop actually
  requests. An endpoint whose only empty pages lie at other offsets terminates in the source
  but is outside the model: for example, total 10 with pages of 5 at offsets 0 and 5 and an
  empty page at offset 3.
- `Utils.CreateChunks` computes `ceil(len / chunk_size)` exactly. The source's float
  division can only differ for lists longer than 2^53 elements.
- `create_chunks` is a lazy generator; the model builds the whole list of chunks.
- Track metadata (name, artists, album) is not modelled; the engine only reads ids.
- `get_track`, `download_music/spotify_dl.py` (thread pool, search scraping, subprocess,
  temporary file) and `get_playlist_artists.py` are left out. The latter imports
  `get_playlist_latin_artists_names`, which is not part of this model.
