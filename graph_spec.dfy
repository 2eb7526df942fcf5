/** What the artist-similarity graph of posts/graphify/app.py is, stated on
    plain values: the artists' names, image URLs and related-name lists, in
    list order. The builder in module GraphBuilder is proved to produce a graph that
    satisfies `IsSimilarityGraph`; the lemmas here say what such a graph is. */
module GraphSpec {

  /** The cosmetic attributes every artist node carries. */
  const NodeSize := 40
  const NodeShape := "circularImage"
  /** The colour an edge is given when it is created. */
  const EdgeColor := "black"

  datatype NodeAttrs = NodeAttrs(size: int, shape: string, image: string)
  datatype EdgeAttrs = EdgeAttrs(weight: int, color: string)

  /** An undirected graph: node attributes by name, and edge attributes by the
      unordered pair of endpoint names (a set, so that {a, b} and {b, a} are
      one key and there is at most one edge per pair). */
  datatype Graph = Graph(nodes: map<string, NodeAttrs>, edges: map<set<string>, EdgeAttrs>)

  function ArtistNode(imageUrl: string): NodeAttrs
  {
    NodeAttrs(NodeSize, NodeShape, imageUrl)
  }

  function EdgeKey(a: string, b: string): set<string>
  {
    {a, b}
  }

  ghost predicate DistinctNames(names: seq<string>)
  {
    forall p, q :: 0 <= p < |names| && 0 <= q < |names| && p != q ==> names[p] != names[q]
  }

  /** No later artist in the list has the name of artist `k`. */
  ghost predicate LastWithName(names: seq<string>, k: nat)
    requires k < |names|
  {
    forall j :: k < j < |names| ==> names[j] != names[k]
  }

  /** Artist `p`'s name is in artist `q`'s related list. */
  ghost predicate Mentions(names: seq<string>, related: seq<seq<string>>, p: nat, q: nat)
    requires p < |names| && q < |related|
  {
    names[p] in related[q]
  }

  /** The number of directions in which the pair {p, q} mention each other. */
  ghost function Weight(names: seq<string>, related: seq<seq<string>>, p: nat, q: nat): nat
    requires p < |names| && q < |names| && |related| == |names|
  {
    (if Mentions(names, related, p, q) then 1 else 0) + (if Mentions(names, related, q, p) then 1 else 0)
  }

  /** One node per artist name; a name held by several artists carries the
      image of the last of them, as repeated `add_node` calls overwrite. */
  ghost predicate IsArtistNodes(names: seq<string>, images: seq<string>, nodes: map<string, NodeAttrs>)
    requires |images| == |names|
  {
    && nodes.Keys == (set k | 0 <= k < |names| :: names[k])
    && forall k :: 0 <= k < |names| && LastWithName(names, k) ==> nodes[names[k]] == ArtistNode(images[k])
  }

  /** `e` holds the names of two different artists (positions in the list). */
  ghost predicate IsPairKey(names: seq<string>, e: set<string>)
  {
    exists p, q :: 0 <= p < |names| && 0 <= q < |names| && p != q && e == {names[p], names[q]}
  }

  /** An edge joins two different artists exactly when one mentions the other;
      it is black and its weight counts the directions of mention; no other
      key is present. */
  ghost predicate IsMentionEdges(names: seq<string>, related: seq<seq<string>>, edges: map<set<string>, EdgeAttrs>)
    requires |related| == |names|
  {
    && (forall p, q {:trigger EdgeKey(names[p], names[q])} :: 0 <= p < |names| && 0 <= q < |names| && p != q ==>
          (EdgeKey(names[p], names[q]) in edges <==> Weight(names, related, p, q) > 0))
    && (forall p, q {:trigger EdgeKey(names[p], names[q])} :: 0 <= p < |names| && 0 <= q < |names| && p != q && EdgeKey(names[p], names[q]) in edges ==>
          edges[EdgeKey(names[p], names[q])] == EdgeAttrs(Weight(names, related, p, q), EdgeColor))
    && (forall e :: e in edges ==> IsPairKey(names, e))
  }

  ghost predicate IsSimilarityGraph(names: seq<string>, images: seq<string>, related: seq<seq<string>>, g: Graph)
    requires |images| == |names| && |related| == |names|
  {
    IsArtistNodes(names, images, g.nodes) && IsMentionEdges(names, related, g.edges)
  }

  // ---------------------------------------------------------------------------
  // Properties of the similarity graph

  /** With distinct names, two pairs of different artists share an edge key
      only when they are the same unordered pair. */
  lemma EdgeKeyInjective(names: seq<string>, p: nat, q: nat, i: nat, j: nat)
    requires DistinctNames(names)
    requires p < |names| && q < |names| && i < |names| && j < |names|
    requires p != q && i != j
    ensures EdgeKey(names[p], names[q]) == EdgeKey(names[i], names[j]) <==> (p == i && q == j) || (p == j && q == i)
  {
    if EdgeKey(names[p], names[q]) == EdgeKey(names[i], names[j]) {
      assert names[p] in EdgeKey(names[i], names[j]);
      assert names[q] in EdgeKey(names[i], names[j]);
    }
  }

  /** Every edge is the edge of a pair of different artists that mention
      each other in at least one direction, with the weight of that pair. */
  lemma EdgeWitness(names: seq<string>, related: seq<seq<string>>, edges: map<set<string>, EdgeAttrs>, e: set<string>)
    returns (p: nat, q: nat)
    requires |related| == |names| && IsMentionEdges(names, related, edges)
    requires e in edges
    ensures p < |names| && q < |names| && p != q && e == EdgeKey(names[p], names[q])
    ensures Weight(names, related, p, q) > 0
    ensures edges[e] == EdgeAttrs(Weight(names, related, p, q), EdgeColor)
  {
    assert IsPairKey(names, e);
    p, q :| 0 <= p < |names| && 0 <= q < |names| && p != q && e == {names[p], names[q]};
    assert e == EdgeKey(names[p], names[q]);
  }

  /** Every edge is black and has weight 1 or 2. */
  lemma EdgeWeightOneOrTwo(names: seq<string>, related: seq<seq<string>>, edges: map<set<string>, EdgeAttrs>, e: set<string>)
    requires |related| == |names| && IsMentionEdges(names, related, edges)
    requires e in edges
    ensures edges[e].color == EdgeColor
    ensures 1 <= edges[e].weight <= 2
  {
    var p, q := EdgeWitness(names, related, edges, e);
  }

  /** For two different artists: weight 1 exactly for a one-directional
      mention, weight 2 exactly for a mutual one, and no edge otherwise. */
  lemma WeightCountsDirections(names: seq<string>, related: seq<seq<string>>, edges: map<set<string>, EdgeAttrs>, p: nat, q: nat)
    requires |related| == |names| && IsMentionEdges(names, related, edges)
    requires p < |names| && q < |names| && p != q
    ensures EdgeKey(names[p], names[q]) !in edges <==> !(names[p] in related[q]) && !(names[q] in related[p])
    ensures EdgeKey(names[p], names[q]) in edges && edges[EdgeKey(names[p], names[q])].weight == 1
            <==> (names[p] in related[q]) != (names[q] in related[p])
    ensures EdgeKey(names[p], names[q]) in edges && edges[EdgeKey(names[p], names[q])].weight == 2
            <==> names[p] in related[q] && names[q] in related[p]
  {
  }

  /** With distinct names there are no self-loops: every edge key holds two names. */
  lemma NoSelfLoops(names: seq<string>, related: seq<seq<string>>, edges: map<set<string>, EdgeAttrs>, e: set<string>)
    requires |related| == |names| && IsMentionEdges(names, related, edges)
    requires DistinctNames(names)
    requires e in edges
    ensures |e| == 2
  {
    var p, q := EdgeWitness(names, related, edges, e);
    assert e == {names[p]} + {names[q]};
  }

  /** Edges only join artists of the graph: a related name that is no
      artist's name adds neither a node nor an edge. */
  lemma EdgesJoinNodes(names: seq<string>, images: seq<string>, related: seq<seq<string>>, g: Graph, e: set<string>, a: string)
    requires |images| == |names| && |related| == |names| && IsSimilarityGraph(names, images, related, g)
    requires e in g.edges && a in e
    ensures a in g.nodes
  {
    var p, q := EdgeWitness(names, related, g.edges, e);
    assert a == names[p] || a == names[q];
  }

  /** When no artist mentions another artist of the list, there is no edge. */
  lemma NoMentionsNoEdges(names: seq<string>, related: seq<seq<string>>, edges: map<set<string>, EdgeAttrs>)
    requires |related| == |names| && IsMentionEdges(names, related, edges)
    requires forall p, q :: 0 <= p < |names| && 0 <= q < |names| && p != q ==> names[p] !in related[q]
    ensures edges == map[]
  {
    if edges != map[] {
      var e :| e in edges;
      var p, q := EdgeWitness(names, related, edges, e);
      assert false;
    }
  }

  /** In particular, when every related list is empty there is no edge. */
  lemma EmptyRelatedNoEdges(names: seq<string>, related: seq<seq<string>>, edges: map<set<string>, EdgeAttrs>)
    requires |related| == |names| && IsMentionEdges(names, related, edges)
    requires forall q :: 0 <= q < |related| ==> related[q] == []
    ensures edges == map[]
  {
    NoMentionsNoEdges(names, related, edges);
  }

  /** The edge description determines the edge map. */
  lemma MentionEdgesUnique(names: seq<string>, related: seq<seq<string>>, e1: map<set<string>, EdgeAttrs>, e2: map<set<string>, EdgeAttrs>)
    requires |related| == |names|
    requires IsMentionEdges(names, related, e1) && IsMentionEdges(names, related, e2)
    ensures e1 == e2
  {
    forall e | e in e1
      ensures e in e2 && e1[e] == e2[e]
    {
      var p, q := EdgeWitness(names, related, e1, e);
    }
    forall e | e in e2
      ensures e in e1
    {
      var p, q := EdgeWitness(names, related, e2, e);
    }
  }

  /** The node description determines the node map. */
  lemma ArtistNodesUnique(names: seq<string>, images: seq<string>, n1: map<string, NodeAttrs>, n2: map<string, NodeAttrs>)
    requires |images| == |names|
    requires IsArtistNodes(names, images, n1) && IsArtistNodes(names, images, n2)
    ensures n1 == n2
  {
    forall a | a in n1
      ensures n1[a] == n2[a]
    {
      var k :| 0 <= k < |names| && names[k] == a;
      var last := LastIndexOf(names, k);
    }
  }

  /** The last position holding the name at position `k`. */
  lemma LastIndexOf(names: seq<string>, k: nat) returns (last: nat)
    requires k < |names|
    ensures k <= last < |names| && names[last] == names[k] && LastWithName(names, last)
    decreases |names| - k
  {
    if LastWithName(names, k) {
      last := k;
    } else {
      var j :| k < j < |names| && names[j] == names[k];
      last := LastIndexOf(names, j);
    }
  }

  /** With distinct names, each artist's node carries that artist's image. */
  lemma NodeOfEachArtist(names: seq<string>, images: seq<string>, nodes: map<string, NodeAttrs>, k: nat)
    requires |images| == |names| && IsArtistNodes(names, images, nodes)
    requires DistinctNames(names) && k < |names|
    ensures names[k] in nodes
    ensures nodes[names[k]] == NodeAttrs(40, "circularImage", images[k])
  {
    assert LastWithName(names, k);
  }

  /** Only which artists' names occur in which related lists matters: any
      other content of the lists leaves the edges as they are. */
  lemma SameMentionsSameEdges(names: seq<string>, related: seq<seq<string>>, related': seq<seq<string>>, edges: map<set<string>, EdgeAttrs>)
    requires |related| == |names| && |related'| == |names|
    requires forall p, q :: 0 <= p < |names| && 0 <= q < |names| ==> (names[p] in related[q] <==> names[p] in related'[q])
    ensures IsMentionEdges(names, related, edges) <==> IsMentionEdges(names, related', edges)
  {
    assert forall p, q :: 0 <= p < |names| && 0 <= q < |names| ==> Weight(names, related, p, q) == Weight(names, related', p, q);
  }

  /** A related name that is no artist's name changes no edge. */
  lemma UnknownRelatedNameIgnored(names: seq<string>, related: seq<seq<string>>, q: nat, x: string, edges: map<set<string>, EdgeAttrs>)
    requires |related| == |names| && q < |names|
    requires x !in names
    ensures IsMentionEdges(names, related, edges) <==> IsMentionEdges(names, related[q := related[q] + [x]], edges)
  {
    SameMentionsSameEdges(names, related, related[q := related[q] + [x]], edges);
  }

  /** Listing a name a second time in one related list changes no edge: that
      direction still contributes 1 to the weight. */
  lemma RepeatedRelatedNameIgnored(names: seq<string>, related: seq<seq<string>>, q: nat, x: string, edges: map<set<string>, EdgeAttrs>)
    requires |related| == |names| && q < |names|
    requires x in related[q]
    ensures IsMentionEdges(names, related, edges) <==> IsMentionEdges(names, related[q := related[q] + [x]], edges)
  {
    SameMentionsSameEdges(names, related, related[q := related[q] + [x]], edges);
  }

  // ---------------------------------------------------------------------------
  // Two worked examples

  /** A and B name each other, C names nobody: one edge {A, B} of weight 2,
      and C has no edge. */
  lemma MutualPairExample(edges: map<set<string>, EdgeAttrs>)
    requires IsMentionEdges(["A", "B", "C"], [["B"], ["A"], []], edges)
    ensures {"A", "B"} in edges && edges[{"A", "B"}] == EdgeAttrs(2, "black")
    ensures {"A", "C"} !in edges && {"B", "C"} !in edges
  {
    var names, related := ["A", "B", "C"], [["B"], ["A"], []];
    assert EdgeKey(names[0], names[1]) == {"A", "B"};
    assert EdgeKey(names[0], names[2]) == {"A", "C"};
    assert EdgeKey(names[1], names[2]) == {"B", "C"};
    assert names[0] in related[1] && names[1] in related[0];
    assert names[0] !in related[2] && names[2] !in related[0];
    assert names[1] !in related[2] && names[2] !in related[1];
  }

  /** A names B, B names C, C names A: a triangle of weight-1 edges. */
  lemma TriangleExample(edges: map<set<string>, EdgeAttrs>)
    requires IsMentionEdges(["A", "B", "C"], [["B"], ["C"], ["A"]], edges)
    ensures {"A", "B"} in edges && edges[{"A", "B"}] == EdgeAttrs(1, "black")
    ensures {"B", "C"} in edges && edges[{"B", "C"}] == EdgeAttrs(1, "black")
    ensures {"A", "C"} in edges && edges[{"A", "C"}] == EdgeAttrs(1, "black")
  {
    var names, related := ["A", "B", "C"], [["B"], ["C"], ["A"]];
    assert EdgeKey(names[0], names[1]) == {"A", "B"};
    assert EdgeKey(names[0], names[2]) == {"A", "C"};
    assert EdgeKey(names[1], names[2]) == {"B", "C"};
    assert names[0] in related[2] && names[1] in related[0] && names[2] in related[1];
    assert names[0] !in related[1] && names[1] !in related[2] && names[2] !in related[0];
  }
}
