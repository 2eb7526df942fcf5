/** The `Artist` record of posts/graphify/data_classes.py, and the views of a
    list of artists that the graph builder reads. */
module DataClasses {
  import opened Wrappers

  /** A streaming-service artist. The identity fields are set once by the
      constructor; `relatedArtists` ("Fans also like" names) is filled in a
      second pass, by assignment or by appending. */
  class Artist {
    var name: string
    var id: string
    var imageUrl: string
    var spotifyPopularity: int
    var userRank: int
    var relatedArtists: seq<string>

    /** The documented range of `spotifyPopularity` (0 to 100). It is stated in
        the record's documentation and never checked, so it is a property an
        artist may or may not have, not an invariant the class enforces. */
    ghost predicate PopularityInDocumentedRange()
      reads this
    {
      0 <= spotifyPopularity <= 100
    }

    /** Stores every argument unchanged; an omitted related list (`None`)
        becomes the empty list. */
    constructor (name: string, id: string, imageUrl: string, spotifyPopularity: int,
                 userRank: int, relatedArtists: Option<seq<string>>)
      ensures this.name == name && this.id == id && this.imageUrl == imageUrl
      ensures this.spotifyPopularity == spotifyPopularity && this.userRank == userRank
      ensures relatedArtists.None? ==> this.relatedArtists == []
      ensures relatedArtists.Some? ==> this.relatedArtists == relatedArtists.value
      ensures 0 <= spotifyPopularity <= 100 ==> PopularityInDocumentedRange()
    {
      this.name := name;
      this.id := id;
      this.imageUrl := imageUrl;
      this.spotifyPopularity := spotifyPopularity;
      this.userRank := userRank;
      this.relatedArtists := relatedArtists.GetOr([]);
    }

    /** Appends one name to the related list, in place; no other field moves. */
    method AddRelatedArtist(relatedArtist: string)
      modifies this`relatedArtists
      ensures |relatedArtists| == |old(relatedArtists)| + 1
      ensures relatedArtists[..|old(relatedArtists)|] == old(relatedArtists)
      ensures relatedArtists[|relatedArtists| - 1] == relatedArtist
    {
      relatedArtists := relatedArtists + [relatedArtist];
    }
  }

  /** The fields of an artist that no pass after construction changes. */
  twostate predicate IdentityUnchanged(a: Artist)
    reads a
  {
    && a.name == old(a.name)
    && a.id == old(a.id)
    && a.imageUrl == old(a.imageUrl)
    && a.spotifyPopularity == old(a.spotifyPopularity)
    && a.userRank == old(a.userRank)
  }

  /** No artist object occurs twice in the list. */
  ghost predicate DistinctObjects(artists: seq<Artist>)
  {
    forall p, q :: 0 <= p < q < |artists| ==> artists[p] != artists[q]
  }

  /** The artists' names, in list order. */
  function Names(artists: seq<Artist>): (r: seq<string>)
    reads artists
    ensures |r| == |artists|
    ensures forall k :: 0 <= k < |artists| ==> r[k] == artists[k].name
  {
    seq(|artists|, k requires 0 <= k < |artists| reads artists => artists[k].name)
  }

  /** The artists' image URLs, in list order. */
  function Images(artists: seq<Artist>): (r: seq<string>)
    reads artists
    ensures |r| == |artists|
    ensures forall k :: 0 <= k < |artists| ==> r[k] == artists[k].imageUrl
  {
    seq(|artists|, k requires 0 <= k < |artists| reads artists => artists[k].imageUrl)
  }

  /** The artists' related-name lists, in list order. */
  function RelatedLists(artists: seq<Artist>): (r: seq<seq<string>>)
    reads artists
    ensures |r| == |artists|
    ensures forall k :: 0 <= k < |artists| ==> r[k] == artists[k].relatedArtists
  {
    seq(|artists|, k requires 0 <= k < |artists| reads artists => artists[k].relatedArtists)
  }
}
