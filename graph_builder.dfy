/** The graph-building block of posts/graphify/app.py: one node per top
    artist, then a double loop over ordered pairs of different artists that
    creates an edge of weight 1 on the first mention and increments it on the
    second. The script's two copies of this block are modelled once. */
module GraphBuilder {
  import opened DataClasses
  import opened GraphSpec

  /** The outer loop is at artist `i` and the inner loop at artist `j`: the
      ordered pair (p, q) has been examined already. */
  ghost predicate Examined(i: nat, j: nat, p: nat, q: nat)
  {
    p < i || (p == i && q < j)
  }

  /** The weight of {p, q} counting only the ordered pairs examined so far. */
  ghost function PartialWeight(names: seq<string>, related: seq<seq<string>>, i: nat, j: nat, p: nat, q: nat): nat
    requires p < |names| && q < |names| && |related| == |names|
  {
    (if Examined(i, j, p, q) && Mentions(names, related, p, q) then 1 else 0)
    + (if Examined(i, j, q, p) && Mentions(names, related, q, p) then 1 else 0)
  }

  /** The edge map as it stands when the loops reach (i, j). */
  ghost predicate IsPartialEdges(names: seq<string>, related: seq<seq<string>>, i: nat, j: nat,
                                 edges: map<set<string>, EdgeAttrs>)
    requires |related| == |names|
  {
    && (forall p, q {:trigger EdgeKey(names[p], names[q])} :: 0 <= p < |names| && 0 <= q < |names| && p != q ==>
          (EdgeKey(names[p], names[q]) in edges <==> PartialWeight(names, related, i, j, p, q) > 0))
    && (forall p, q {:trigger EdgeKey(names[p], names[q])} ::
          0 <= p < |names| && 0 <= q < |names| && p != q && EdgeKey(names[p], names[q]) in edges ==>
          edges[EdgeKey(names[p], names[q])] == EdgeAttrs(PartialWeight(names, related, i, j, p, q), EdgeColor))
    && (forall e :: e in edges ==> IsPairKey(names, e))
  }

  /** Examining the ordered pair (i, j) adds 1 to the partial weight of the
      pair {i, j} when artist i is mentioned by artist j, and nothing else. */
  lemma PartialWeightStep(names: seq<string>, related: seq<seq<string>>, i: nat, j: nat, p: nat, q: nat)
    requires |related| == |names| && i < |names| && j < |names|
    requires p < |names| && q < |names| && p != q
    ensures PartialWeight(names, related, i, j + 1, p, q)
            == PartialWeight(names, related, i, j, p, q)
               + (if i != j && Mentions(names, related, i, j) && ((p == i && q == j) || (p == j && q == i)) then 1 else 0)
  {
  }

  /** Examining a pair that is skipped (the same artist, or no mention) keeps
      the partial description with the edges unchanged. */
  lemma ExamineSkip(names: seq<string>, related: seq<seq<string>>, i: nat, j: nat, edges: map<set<string>, EdgeAttrs>)
    requires |related| == |names| && i < |names| && j < |names|
    requires i == j || names[i] !in related[j]
    requires IsPartialEdges(names, related, i, j, edges)
    ensures IsPartialEdges(names, related, i, j + 1, edges)
  {
    forall p, q | 0 <= p < |names| && 0 <= q < |names| && p != q
      ensures PartialWeight(names, related, i, j + 1, p, q) == PartialWeight(names, related, i, j, p, q)
    {
      PartialWeightStep(names, related, i, j, p, q);
    }
  }

  /** One hit of the inner loop (app.py lines 51-54), on the edge `key`: if
      the edge exists its weight goes up by one, otherwise it is created with
      weight 1 and colour black. */
  function Hit(edges: map<set<string>, EdgeAttrs>, key: set<string>): map<set<string>, EdgeAttrs>
  {
    if key in edges then edges[key := EdgeAttrs(edges[key].weight + 1, edges[key].color)]
    else edges[key := EdgeAttrs(1, EdgeColor)]
  }

  /** What a hit on `key` does to the entry of another key `k`, whose partial
      weight goes from `w` to `w'`. */
  lemma HitEntry(edges: map<set<string>, EdgeAttrs>, key: set<string>, w0: nat, k: set<string>, w: nat, w': nat)
    requires key in edges <==> w0 > 0
    requires key in edges ==> edges[key] == EdgeAttrs(w0, EdgeColor)
    requires k in edges <==> w > 0
    requires k in edges ==> edges[k] == EdgeAttrs(w, EdgeColor)
    requires k == key ==> w' == w + 1 && w0 == w
    requires k != key ==> w' == w
    ensures k in Hit(edges, key) <==> w' > 0
    ensures k in Hit(edges, key) ==> Hit(edges, key)[k] == EdgeAttrs(w', EdgeColor)
  {
  }

  /** A hit on the pair (i, j) updates the partial description of the pair
      (p, q). */
  lemma ExamineHitPair(names: seq<string>, related: seq<seq<string>>, i: nat, j: nat,
                       edges: map<set<string>, EdgeAttrs>, p: nat, q: nat)
    requires |related| == |names| && DistinctNames(names)
    requires i < |names| && j < |names| && i != j && names[i] in related[j]
    requires IsPartialEdges(names, related, i, j, edges)
    requires p < |names| && q < |names| && p != q
    ensures EdgeKey(names[p], names[q]) in Hit(edges, EdgeKey(names[i], names[j]))
            <==> PartialWeight(names, related, i, j + 1, p, q) > 0
    ensures EdgeKey(names[p], names[q]) in Hit(edges, EdgeKey(names[i], names[j])) ==>
      Hit(edges, EdgeKey(names[i], names[j]))[EdgeKey(names[p], names[q])]
      == EdgeAttrs(PartialWeight(names, related, i, j + 1, p, q), EdgeColor)
  {
    var key := EdgeKey(names[i], names[j]);
    var w0 := PartialWeight(names, related, i, j, i, j);
    var w := PartialWeight(names, related, i, j, p, q);
    assert key in edges <==> w0 > 0;
    assert key in edges ==> edges[key] == EdgeAttrs(w0, EdgeColor);
    PartialWeightStep(names, related, i, j, p, q);
    EdgeKeyInjective(names, p, q, i, j);
    if EdgeKey(names[p], names[q]) == key {
      assert w == w0;
    }
    HitEntry(edges, key, w0, EdgeKey(names[p], names[q]), w, PartialWeight(names, related, i, j + 1, p, q));
  }

  /** Examining a pair where artist i is mentioned by artist j: the edge
      {i, j} is created with weight 1 or its weight is incremented. */
  lemma ExamineHit(names: seq<string>, related: seq<seq<string>>, i: nat, j: nat, edges: map<set<string>, EdgeAttrs>)
    requires |related| == |names| && DistinctNames(names)
    requires i < |names| && j < |names| && i != j && names[i] in related[j]
    requires IsPartialEdges(names, related, i, j, edges)
    ensures IsPartialEdges(names, related, i, j + 1, Hit(edges, EdgeKey(names[i], names[j])))
  {
    var key := EdgeKey(names[i], names[j]);
    forall p, q | 0 <= p < |names| && 0 <= q < |names| && p != q
      ensures EdgeKey(names[p], names[q]) in Hit(edges, key) <==> PartialWeight(names, related, i, j + 1, p, q) > 0
      ensures EdgeKey(names[p], names[q]) in Hit(edges, key) ==>
        Hit(edges, key)[EdgeKey(names[p], names[q])] == EdgeAttrs(PartialWeight(names, related, i, j + 1, p, q), EdgeColor)
    {
      ExamineHitPair(names, related, i, j, edges, p, q);
    }
    HitKeysArePairs(names, related, i, j, edges);
  }

  /** After a hit, every key is still the key of a pair of different artists. */
  lemma HitKeysArePairs(names: seq<string>, related: seq<seq<string>>, i: nat, j: nat, edges: map<set<string>, EdgeAttrs>)
    requires |related| == |names| && i < |names| && j < |names| && i != j
    requires forall e :: e in edges ==> IsPairKey(names, e)
    ensures forall e :: e in Hit(edges, EdgeKey(names[i], names[j])) ==> IsPairKey(names, e)
  {
    assert IsPairKey(names, EdgeKey(names[i], names[j]));
  }

  /** The end of the inner loop for artist i is the start of the outer loop's
      next round. */
  lemma NextOuter(names: seq<string>, related: seq<seq<string>>, i: nat, edges: map<set<string>, EdgeAttrs>)
    requires |related| == |names| && i < |names|
    requires IsPartialEdges(names, related, i, |names|, edges)
    ensures IsPartialEdges(names, related, i + 1, 0, edges)
  {
    forall p, q | 0 <= p < |names| && 0 <= q < |names| && p != q
      ensures PartialWeight(names, related, i + 1, 0, p, q) == PartialWeight(names, related, i, |names|, p, q)
    {
      assert Examined(i + 1, 0, p, q) == Examined(i, |names|, p, q);
      assert Examined(i + 1, 0, q, p) == Examined(i, |names|, q, p);
    }
  }

  /** Once every ordered pair is examined, the partial weights are the
      weights of the finished graph. */
  lemma AllExamined(names: seq<string>, related: seq<seq<string>>, edges: map<set<string>, EdgeAttrs>)
    requires |related| == |names|
    requires IsPartialEdges(names, related, |names|, 0, edges)
    ensures IsMentionEdges(names, related, edges)
  {
    forall p, q | 0 <= p < |names| && 0 <= q < |names| && p != q
      ensures PartialWeight(names, related, |names|, 0, p, q) == Weight(names, related, p, q)
    {
    }
  }

  /** One examination of the ordered pair (i, j) by the inner loop. */
  function Examine(names: seq<string>, related: seq<seq<string>>, i: nat, j: nat,
                   edges: map<set<string>, EdgeAttrs>): map<set<string>, EdgeAttrs>
    requires |related| == |names| && i < |names| && j < |names|
  {
    if i != j && names[i] in related[j] then Hit(edges, EdgeKey(names[i], names[j])) else edges
  }

  /** Examining the pair (i, j) keeps the partial description. */
  lemma ExamineDescribed(names: seq<string>, related: seq<seq<string>>, i: nat, j: nat, edges: map<set<string>, EdgeAttrs>)
    requires |related| == |names| && DistinctNames(names)
    requires i < |names| && j < |names|
    requires IsPartialEdges(names, related, i, j, edges)
    ensures IsPartialEdges(names, related, i, j + 1, Examine(names, related, i, j, edges))
  {
    if i != j && names[i] in related[j] {
      ExamineHit(names, related, i, j, edges);
    } else {
      ExamineSkip(names, related, i, j, edges);
    }
  }

  /** The edge map the double loop holds when it reaches (i, j): every ordered
      pair examined before it, in loop order, applied to the empty map. */
  ghost function EdgesAt(names: seq<string>, related: seq<seq<string>>, i: nat, j: nat): map<set<string>, EdgeAttrs>
    requires |related| == |names| && i <= |names| && j <= |names| && (i == |names| ==> j == 0)
    decreases i, j
  {
    if j > 0 then Examine(names, related, i, j - 1, EdgesAt(names, related, i, j - 1))
    else if i > 0 then EdgesAt(names, related, i - 1, |names|)
    else map[]
  }

  /** The edge map at (i, j) is described by the partial weights at (i, j). */
  lemma {:induction false} EdgesAtDescribed(names: seq<string>, related: seq<seq<string>>, i: nat, j: nat,
                                            edges: map<set<string>, EdgeAttrs>)
    requires |related| == |names| && DistinctNames(names)
    requires i <= |names| && j <= |names| && (i == |names| ==> j == 0)
    requires edges == EdgesAt(names, related, i, j)
    ensures IsPartialEdges(names, related, i, j, edges)
    decreases i, j
  {
    if j > 0 {
      var before := EdgesAt(names, related, i, j - 1);
      EdgesAtDescribed(names, related, i, j - 1, before);
      ExamineDescribed(names, related, i, j - 1, before);
    } else if i > 0 {
      var before := EdgesAt(names, related, i - 1, |names|);
      EdgesAtDescribed(names, related, i - 1, |names|, before);
      NextOuter(names, related, i - 1, before);
    }
  }

  /** Once the double loop is done, the edges are those of the similarity graph. */
  lemma FinalEdgesDescribed(names: seq<string>, related: seq<seq<string>>, edges: map<set<string>, EdgeAttrs>)
    requires |related| == |names| && DistinctNames(names)
    requires edges == EdgesAt(names, related, |names|, 0)
    ensures IsMentionEdges(names, related, edges)
  {
    EdgesAtDescribed(names, related, |names|, 0, edges);
    AllExamined(names, related, edges);
  }

  /** Creates one node per artist with the fixed size and shape and the
      artist's image (app.py lines 42-43). */
  method AddArtistNodes(artists: seq<Artist>) returns (nodes: map<string, NodeAttrs>)
    ensures IsArtistNodes(Names(artists), Images(artists), nodes)
  {
    ghost var names, images := Names(artists), Images(artists);
    nodes := map[];
    for i := 0 to |artists|
      invariant nodes.Keys == (set k | 0 <= k < i :: names[k])
      invariant forall k :: 0 <= k < i && (forall j :: k < j < i ==> names[j] != names[k]) ==>
        nodes[names[k]] == ArtistNode(images[k])
    {
      nodes := nodes[artists[i].name := ArtistNode(artists[i].imageUrl)];
    }
  }

  /** The double loop over ordered pairs of different artists (app.py lines
      47-54): when the outer artist's name is in the inner artist's related
      list, the edge between them is created with weight 1 and colour black,
      or its weight is incremented if it exists. The artists are read through
      their names and related lists, and "a different artist" is a different
      position in the list (with distinct names, the same as a different
      object). */
  method AddMentionEdges(artists: seq<Artist>) returns (edges: map<set<string>, EdgeAttrs>)
    requires DistinctNames(Names(artists))
    ensures IsMentionEdges(Names(artists), RelatedLists(artists), edges)
  {
    var names, related := Names(artists), RelatedLists(artists);
    edges := map[];
    for i := 0 to |artists|
      invariant edges == EdgesAt(names, related, i, 0)
    {
      for j := 0 to |artists|
        invariant edges == EdgesAt(names, related, i, j)
      {
        if i != j && names[i] in related[j] {
          edges := Hit(edges, EdgeKey(names[i], names[j]));
        }
      }
    }
    FinalEdgesDescribed(names, related, edges);
  }

  /** Builds the artist-similarity graph of a list of artists with distinct
      names (app.py lines 39-54). */
  method BuildGraph(artists: seq<Artist>) returns (g: Graph)
    requires DistinctNames(Names(artists))
    ensures IsSimilarityGraph(Names(artists), Images(artists), RelatedLists(artists), g)
  {
    var nodes := AddArtistNodes(artists);
    var edges := AddMentionEdges(artists);
    g := Graph(nodes, edges);
  }
}
