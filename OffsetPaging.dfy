/**
 * main.py: offset/total pagination of a playlist (`get_playlist_items`) and
 * the projection of its items onto their tracks (`get_tracks`).
 */
module OffsetPaging {
  import opened Wrappers
  import opened Utils
  import Spotify

  /** A page of `playlist_items(playlist_id, offset=...)`: its items and the playlist's total size. */
  datatype OffsetPage<T> = OffsetPage(items: seq<T>, total: nat)

  /**
   * Below `total`, every page the endpoint serves is missing or non-empty.
   * Without this the source loop re-requests the same offset forever.
   */
  ghost predicate Advances<T>(fetch: nat -> Option<OffsetPage<T>>, total: nat)
  {
    forall off: nat :: off < total ==> fetch(off).None? || |fetch(off).value.items| > 0
  }

  /** The endpoint makes progress up to the total announced by the first page. */
  ghost predicate Paginates<T>(fetch: nat -> Option<OffsetPage<T>>)
  {
    fetch(0).Some? ==> Advances(fetch, fetch(0).value.total)
  }

  /** Reference definition of the follow-up loop: request at offset `|items|` until `total` is reached. */
  function Follow<T>(fetch: nat -> Option<OffsetPage<T>>, items: seq<T>, total: nat): seq<T>
    requires Advances(fetch, total)
    decreases total - |items|
  {
    if |items| >= total then items
    else
      match fetch(|items|)
      case None => items
      case Some(page) => Follow(fetch, items + page.items, total)
  }

  /** Reference definition of `get_playlist_items(playlist_id)`. */
  function PlaylistItems<T>(fetch: nat -> Option<OffsetPage<T>>): seq<T>
    requires Paginates(fetch)
  {
    match fetch(0)
    case None => []
    case Some(first) => Follow(fetch, first.items, first.total)
  }

  /** One step of the follow-up loop. */
  lemma FollowStep<T>(fetch: nat -> Option<OffsetPage<T>>, items: seq<T>, total: nat)
    requires Advances(fetch, total)
    ensures |items| >= total ==> Follow(fetch, items, total) == items
    ensures |items| < total && fetch(|items|).None? ==> Follow(fetch, items, total) == items
    ensures |items| < total && fetch(|items|).Some? ==>
      Follow(fetch, items, total) == Follow(fetch, items + fetch(|items|).value.items, total)
  {
  }

  function PageItems<T>(pages: seq<OffsetPage<T>>): (r: seq<seq<T>>)
    ensures |r| == |pages|
  {
    seq(|pages|, j requires 0 <= j < |pages| => pages[j].items)
  }

  /**
   * The follow-up requests after the first page `first`: `offsets[j]` is the
   * offset of request j, which is the number of items held when it was made;
   * `pages` are the pages received, all but possibly the last request
   * answered; `items` is the first page's items followed by theirs.
   */
  ghost predicate FollowUps<T>(fetch: nat -> Option<OffsetPage<T>>, first: OffsetPage<T>, items: seq<T>,
                               offsets: seq<nat>, pages: seq<OffsetPage<T>>)
  {
    && |pages| <= |offsets| <= |pages| + 1
    && items == first.items + Flatten(PageItems(pages))
    && (forall j :: 0 <= j < |pages| ==> fetch(offsets[j]) == Some(pages[j]))
    && (forall j :: 0 <= j < |offsets| ==> offsets[j] == |first.items| + |Flatten(PageItems(pages[..j]))|)
    && (forall j :: 0 <= j < |offsets| ==> offsets[j] < first.total)
  }

  /** A follow-up request at offset `|items|` that gets `page` extends the trace. */
  lemma FollowUpsAnswered<T>(fetch: nat -> Option<OffsetPage<T>>, first: OffsetPage<T>, items: seq<T>,
                             offsets: seq<nat>, pages: seq<OffsetPage<T>>, page: OffsetPage<T>)
    requires FollowUps(fetch, first, items, offsets, pages) && |offsets| == |pages|
    requires |items| < first.total && fetch(|items|) == Some(page)
    ensures FollowUps(fetch, first, items + page.items, offsets + [|items|], pages + [page])
  {
    var offsets', pages' := offsets + [|items|], pages + [page];
    FlattenAppend(PageItems(pages), [page.items]);
    assert PageItems(pages') == PageItems(pages) + [page.items];
    assert pages'[..|pages|] == pages;
    forall j | 0 <= j < |offsets'|
      ensures offsets'[j] == |first.items| + |Flatten(PageItems(pages'[..j]))|
    {
      if j < |pages| {
        assert pages'[..j] == pages[..j];
      }
    }
  }

  /** A follow-up request at offset `|items|` that gets no response ends the trace. */
  lemma FollowUpsMissing<T>(fetch: nat -> Option<OffsetPage<T>>, first: OffsetPage<T>, items: seq<T>,
                            offsets: seq<nat>, pages: seq<OffsetPage<T>>)
    requires FollowUps(fetch, first, items, offsets, pages) && |offsets| == |pages|
    requires |items| < first.total
    ensures FollowUps(fetch, first, items, offsets + [|items|], pages)
  {
    assert pages[..|pages|] == pages;
  }

  /**
   * `get_playlist_items(playlist_id)`. `offsets` records the offset of every
   * follow-up request and `pages` every follow-up page received, in order.
   */
  method GetPlaylistItems<T>(fetch: nat -> Option<OffsetPage<T>>)
    returns (items: seq<T>, ghost offsets: seq<nat>, ghost pages: seq<OffsetPage<T>>)
    requires Paginates(fetch)
    ensures items == PlaylistItems(fetch)
    // a missing first response gives the empty list
    ensures fetch(0).None? ==> items == [] && offsets == [] && pages == []
    // pages are appended in order, each follow-up at the offset equal to the items held so far
    ensures fetch(0).Some? ==> FollowUps(fetch, fetch(0).value, items, offsets, pages)
    // the loop stops on reaching the total, or at the first follow-up that got no response
    ensures fetch(0).Some? && |offsets| == |pages| ==> |items| >= fetch(0).value.total
    ensures |offsets| == |pages| + 1 ==> fetch(offsets[|pages|]).None?
  {
    var response := fetch(0);
    if response.None? {
      return [], [], [];
    }
    var first := response.value;
    var total := first.total;
    items := first.items;
    offsets, pages := [], [];
    ghost var result := PlaylistItems(fetch);
    assert result == Follow(fetch, items, total);
    while |items| < total
      invariant Advances(fetch, total)
      invariant Follow(fetch, items, total) == result
      invariant FollowUps(fetch, first, items, offsets, pages) && |offsets| == |pages|
      decreases total - |items|
    {
      var offset := |items|;
      FollowStep(fetch, items, total);
      response := fetch(offset);
      if response.None? {
        FollowUpsMissing(fetch, first, items, offsets, pages);
        offsets := offsets + [offset];
        break;
      }
      FollowUpsAnswered(fetch, first, items, offsets, pages, response.value);
      offsets := offsets + [offset];
      pages := pages + [response.value];
      items := items + response.value.items;
    }
    FollowStep(fetch, items, total);
  }

  /**
   * When every page below the total is served and never runs past the total,
   * the loop ends holding exactly `total` items.
   */
  lemma {:induction false} FollowExact<T>(fetch: nat -> Option<OffsetPage<T>>, items: seq<T>, total: nat)
    requires Advances(fetch, total) && |items| <= total
    requires forall off: nat :: off < total ==> fetch(off).Some? && |fetch(off).value.items| <= total - off
    ensures |Follow(fetch, items, total)| == total
    decreases total - |items|
  {
    if |items| < total {
      var page := fetch(|items|).value;
      FollowExact(fetch, items + page.items, total);
    }
  }

  /** `[item['track'] for item in items]`: one entry per item, None tracks kept. */
  function ItemTracks(items: seq<Spotify.Item>): (tracks: seq<Option<Spotify.Track>>)
    ensures |tracks| == |items|
    ensures forall i :: 0 <= i < |items| ==> tracks[i] == items[i].track
  {
    if |items| == 0 then [] else [items[0].track] + ItemTracks(items[1..])
  }

  /** `get_tracks(playlist_id)` of main.py. */
  method GetTracks(fetch: nat -> Option<OffsetPage<Spotify.Item>>) returns (tracks: seq<Option<Spotify.Track>>)
    requires Paginates(fetch)
    ensures |tracks| == |PlaylistItems(fetch)|
    ensures forall i :: 0 <= i < |tracks| ==> tracks[i] == PlaylistItems(fetch)[i].track
  {
    var items, _, _ := GetPlaylistItems(fetch);
    tracks := ItemTracks(items);
  }
}
