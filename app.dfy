/** The script posts/graphify/app.py as a whole: collect the top artists,
    fill in their related lists, build the similarity graph. */
module App {
  import opened Wrappers
  import opened DataClasses
  import opened DataFunctions
  import opened GraphSpec
  import opened GraphBuilder

  // ---------------------------------------------------------------------------
  // The whole script: top artists, their related lists, then the graph

  /** The URL of each item's first image. */
  ghost function FirstImages(items: seq<ApiArtist>): (r: seq<string>)
    requires forall k :: 0 <= k < |items| ==> |items[k].images| > 0
    ensures |r| == |items|
  {
    seq(|items|, k requires 0 <= k < |items| => items[k].images[0].url)
  }

  /** The related list the k-th top artist ends up with: the k-th cached list
      if there is one, the empty list if the cache holds fewer lists, and the
      fetched names when there is no cache. */
  ghost function ExpectedRelated(items: seq<ApiArtist>, cache: Option<seq<seq<string>>>,
                                 fetch: string -> seq<ApiArtist>): (r: seq<seq<string>>)
    ensures |r| == |items|
  {
    seq(|items|, k requires 0 <= k < |items| =>
      match cache
      case Some(loaded) => if k < |loaded| then loaded[k] else []
      case None => NamesOf(fetch(items[k].id)))
  }

  /** The collection steps of the second script block (app.py lines 115 and
      122): the top artists from the response, then their related lists from
      the cache or the endpoint. */
  method CollectArtists(items: seq<ApiArtist>, nArtists: nat, cache: Option<seq<seq<string>>>,
                        fetch: string -> seq<ApiArtist>) returns (top: seq<Artist>, saved: Option<seq<seq<string>>>)
    requires nArtists <= |items|
    requires forall i :: 0 <= i < nArtists ==> |items[i].images| > 0
    ensures Names(top) == NamesOf(items[..nArtists])
    ensures Images(top) == FirstImages(items[..nArtists])
    ensures RelatedLists(top) == ExpectedRelated(items[..nArtists], cache, fetch)
    ensures cache.Some? ==> saved.None?
    ensures cache.None? ==> saved == Some(ExpectedRelated(items[..nArtists], cache, fetch))
  {
    ghost var chosen := items[..nArtists];
    top := CollectTopArtists(items, nArtists);
    saved := TestCollectRelatedArtists(top, cache, fetch);
    assert Names(top) == NamesOf(chosen);
    assert Images(top) == FirstImages(chosen);
    assert RelatedLists(top) == ExpectedRelated(chosen, cache, fetch);
    if cache.None? {
      assert saved.value == ExpectedRelated(chosen, cache, fetch);
    }
  }

  /** The second script block (app.py lines 103-140), with the top-artists
      response, the related-artists cache and the related-artists endpoint as
      inputs: the graph is the similarity graph of the first `nArtists`
      items, with the related lists taken from the cache or the endpoint;
      when there is no cache, the fetched lists are returned for saving. */
  method Graphify(items: seq<ApiArtist>, nArtists: nat, cache: Option<seq<seq<string>>>,
                  fetch: string -> seq<ApiArtist>) returns (g: Graph, saved: Option<seq<seq<string>>>)
    requires nArtists <= |items|
    requires forall i :: 0 <= i < nArtists ==> |items[i].images| > 0
    requires DistinctNames(NamesOf(items[..nArtists]))
    ensures IsSimilarityGraph(NamesOf(items[..nArtists]), FirstImages(items[..nArtists]),
                              ExpectedRelated(items[..nArtists], cache, fetch), g)
    ensures cache.Some? ==> saved.None?
    ensures cache.None? ==> saved == Some(ExpectedRelated(items[..nArtists], cache, fetch))
  {
    var top;
    top, saved := CollectArtists(items, nArtists, cache, fetch);
    g := BuildGraph(top);
  }
}
