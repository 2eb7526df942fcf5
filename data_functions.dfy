/** The data-shaping steps of posts/graphify/data_functions.py. The web API is
    not modelled: a top-artists response is given as its list of items, and
    the related-artists endpoint as a function from an artist id to the list
    of artists it returns. A JSON cache file is given as an optional value
    (present when the file exists), and what would be written to it is
    returned. */
module DataFunctions {
  import opened Wrappers
  import opened DataClasses

  datatype Image = Image(url: string)

  /** One artist item of an API response: the fields the code reads. */
  datatype ApiArtist = ApiArtist(name: string, id: string, images: seq<Image>, popularity: int)

  /** Artist `a` is the conversion of item `item` with rank `rank`: copied
      identity fields, the first image's URL, and no related names yet. */
  ghost predicate ConvertedFrom(a: Artist, item: ApiArtist, rank: int)
    reads a
  {
    && |item.images| > 0
    && a.name == item.name
    && a.id == item.id
    && a.imageUrl == item.images[0].url
    && a.spotifyPopularity == item.popularity
    && a.userRank == rank
    && a.relatedArtists == []
  }

  /** Turns the first `nArtists` items of a top-artists response into
      artists, ranked 1 to `nArtists` in response order. The response must
      hold that many items, each with at least one image. */
  method CollectTopArtists(items: seq<ApiArtist>, nArtists: nat) returns (top: seq<Artist>)
    requires nArtists <= |items|
    requires forall i :: 0 <= i < nArtists ==> |items[i].images| > 0
    ensures |top| == nArtists
    ensures forall i :: 0 <= i < nArtists ==> fresh(top[i]) && ConvertedFrom(top[i], items[i], i + 1)
    ensures DistinctObjects(top)
  {
    top := [];
    for i := 0 to nArtists
      invariant |top| == i
      invariant forall k :: 0 <= k < i ==> fresh(top[k]) && ConvertedFrom(top[k], items[k], k + 1)
      invariant DistinctObjects(top)
    {
      var artist := new Artist(items[i].name, items[i].id, items[i].images[0].url,
                               items[i].popularity, i + 1, None);
      top := top + [artist];
    }
  }

  /** The names of the artists of a related-artists response, in response
      order. */
  function NamesOf(musicians: seq<ApiArtist>): (r: seq<string>)
    ensures |r| == |musicians|
    ensures forall k :: 0 <= k < |musicians| ==> r[k] == musicians[k].name
  {
    if musicians == [] then [] else [musicians[0].name] + NamesOf(musicians[1..])
  }

  /** Sets every artist's related list to the names the related-artists
      endpoint returns for its id. */
  method CollectRelatedArtists(artists: seq<Artist>, fetch: string -> seq<ApiArtist>)
    modifies artists
    ensures forall k :: 0 <= k < |artists| ==> IdentityUnchanged(artists[k])
    ensures forall k :: 0 <= k < |artists| ==> artists[k].relatedArtists == NamesOf(fetch(artists[k].id))
  {
    for i := 0 to |artists|
      invariant forall k :: 0 <= k < |artists| ==> IdentityUnchanged(artists[k])
      invariant forall k :: 0 <= k < i ==> artists[k].relatedArtists == NamesOf(fetch(artists[k].id))
    {
      artists[i].relatedArtists := NamesOf(fetch(artists[i].id));
    }
  }

  /** Assigns loaded related lists to artists pairwise, stopping at the
      shorter of the two lists as `zip` does: artists past the end of the
      loaded lists keep their related list. */
  method AssignLoadedRelated(artists: seq<Artist>, loaded: seq<seq<string>>)
    requires DistinctObjects(artists)
    modifies artists
    ensures forall k :: 0 <= k < |artists| ==> IdentityUnchanged(artists[k])
    ensures forall k :: 0 <= k < |artists| && k < |loaded| ==> artists[k].relatedArtists == loaded[k]
    ensures forall k :: |loaded| <= k < |artists| ==> artists[k].relatedArtists == old(artists[k].relatedArtists)
  {
    var n := if |artists| < |loaded| then |artists| else |loaded|;
    for i := 0 to n
      invariant forall k :: 0 <= k < |artists| ==> IdentityUnchanged(artists[k])
      invariant forall k :: 0 <= k < i ==> artists[k].relatedArtists == loaded[k]
      invariant forall k :: i <= k < |artists| ==> artists[k].relatedArtists == old(artists[k].relatedArtists)
    {
      artists[i].relatedArtists := loaded[i];
    }
  }

  /** Fetches every artist's related names, as CollectRelatedArtists does,
      and also returns the list of those lists, parallel to the artists. */
  method FetchAndRecordRelated(artists: seq<Artist>, fetch: string -> seq<ApiArtist>) returns (data: seq<seq<string>>)
    modifies artists
    ensures forall k :: 0 <= k < |artists| ==> IdentityUnchanged(artists[k])
    ensures |data| == |artists|
    ensures forall k :: 0 <= k < |artists| ==>
      artists[k].relatedArtists == NamesOf(fetch(artists[k].id)) && data[k] == artists[k].relatedArtists
  {
    data := [];
    for i := 0 to |artists|
      invariant forall k :: 0 <= k < |artists| ==> IdentityUnchanged(artists[k])
      invariant |data| == i
      invariant forall k :: 0 <= k < i ==>
        artists[k].relatedArtists == NamesOf(fetch(artists[k].id)) && data[k] == artists[k].relatedArtists
    {
      artists[i].relatedArtists := NamesOf(fetch(artists[i].id));
      data := data + [artists[i].relatedArtists];
    }
  }

  /** Fills the artists' related lists from the cache when it exists, and
      otherwise from the endpoint. Returns what is written to the cache:
      nothing when it was read, the fetched lists when it was not. */
  method TestCollectRelatedArtists(artists: seq<Artist>, cache: Option<seq<seq<string>>>,
                                   fetch: string -> seq<ApiArtist>) returns (saved: Option<seq<seq<string>>>)
    requires cache.Some? ==> DistinctObjects(artists)
    modifies artists
    ensures forall k :: 0 <= k < |artists| ==> IdentityUnchanged(artists[k])
    ensures cache.Some? ==> saved.None?
    ensures cache.Some? ==> forall k :: 0 <= k < |artists| ==>
      artists[k].relatedArtists == if k < |cache.value| then cache.value[k] else old(artists[k].relatedArtists)
    ensures cache.None? ==> saved.Some? && |saved.value| == |artists|
    ensures cache.None? ==> forall k :: 0 <= k < |artists| ==>
      artists[k].relatedArtists == NamesOf(fetch(artists[k].id)) && saved.value[k] == artists[k].relatedArtists
  {
    match cache {
      case Some(loaded) =>
        AssignLoadedRelated(artists, loaded);
        saved := None;
      case None =>
        var data := FetchAndRecordRelated(artists, fetch);
        saved := Some(data);
    }
  }
}
