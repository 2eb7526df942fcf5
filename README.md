# Graphify: the artist-similarity graph, in Dafny

This project models the core of "graphify", a small script that takes a
listener's top artists from a music-streaming service, attaches to each the
names of its "Fans also like" (related) artists, and builds an undirected,
weighted similarity graph over the top artists:

- one node per top artist, keyed by name, with size 40, shape
  `circularImage` and the artist's image URL;
- for every ordered pair of different artists (A, B), when A's name is in B's
  related list, the edge {A, B} is created with weight 1 and colour black, or
  its weight is incremented if it already exists. A one-directional mention
  therefore gives weight 1 and a mutual one weight 2.

The model is split as the program is:

- `wrappers.dfy` (module `Wrappers`): an `Option` type for Python's `None`.
- `data_classes.dfy` (module `DataClasses`): the `Artist` class, with its
  constructor and the in-place `AddRelatedArtist`; the views `Names`,
  `Images` and `RelatedLists` of a list of artists.
- `data_functions.dfy` (module `DataFunctions`): turning a top-artists
  response into ranked artists, and filling in related lists from the
  related-artists endpoint or from a cached list of lists.
- `graph_spec.dfy` (module `GraphSpec`): the graph as a value (a node map and
  an edge map keyed by the unordered pair of names), the predicate
  `IsSimilarityGraph` that says what the built graph is, and lemmas about it.
- `graph_builder.dfy` (module `GraphBuilder`): the node loop and the nested
  edge loop, as methods proved against `IsSimilarityGraph`. The edge loop is
  specified by `EdgesAt`, the map after each examined pair, and an induction
  lemma ties that to the graph description.
- `app.dfy` (module `App`): the script as a whole, from the top-artists
  response to the graph.

The web API is replaced by inputs: the top-artists response is a sequence of
`ApiArtist` records, and the related-artists endpoint is a function from an
artist id to the sequence of artists it returns. A JSON cache file is an
`Option` (present when the file exists), and what would be written to it is
returned as an `Option`.

The code rejects neither a repeated name nor an unknown artist; graph
building requires distinct names. When there are fewer cached related lists
than artists, the remaining artists keep the related list they already had,
which is empty for artists fresh from `CollectTopArtists`. A related list can
be reassigned any number of times.

## Model

| member | source | states |
|---|---|---|
| DataClasses.Artist.constructor | posts/graphify/data_classes.py:15-34 | name, id, image URL, popularity and rank are stored unchanged; an omitted related list becomes `[]`, a supplied one is stored as given |
| DataClasses.Artist.AddRelatedArtist | posts/graphify/data_classes.py:36-37 | the related list grows by one, its old elements are unchanged, the new name is last; no other field is touched (frame `this\`relatedArtists`) |
| DataFunctions.CollectTopArtists | posts/graphify/data_functions.py:24-32 | returns exactly `nArtists` distinct new artists; the i-th copies name, id and popularity of item i, takes the URL of its first image, has rank i+1 and no related names; requires enough items, each with an image |
| DataFunctions.NamesOf | posts/graphify/data_functions.py:50 | the names of the returned related artists, same length and same order as the response |
| DataFunctions.CollectRelatedArtists | posts/graphify/data_functions.py:47-50 | every artist's related list becomes the names the endpoint returns for its id; identity fields are unchanged |
| DataFunctions.AssignLoadedRelated | posts/graphify/data_functions.py:59-61 | artist k gets the k-th loaded list for k below both lengths; artists past the end of the loaded lists keep their related list; identity fields are unchanged |
| DataFunctions.FetchAndRecordRelated | posts/graphify/data_functions.py:63-68 | each artist's related list is fetched by id, and the returned list of lists has one entry per artist, entry k equal to artist k's related list |
| DataFunctions.TestCollectRelatedArtists | posts/graphify/data_functions.py:52-72 | with a cache, lists are assigned pairwise and nothing is saved; without one, lists are fetched and the parallel list is saved |
| GraphBuilder.AddArtistNodes | posts/graphify/app.py:42-43 | the node keys are exactly the artist names; each node has size 40, shape `circularImage` and its artist's image (the last artist's, for a repeated name) |
| GraphBuilder.AddMentionEdges | posts/graphify/app.py:47-54 | after the double loop, {a, b} is an edge iff a and b are different artists and one names the other; its weight is the number of directions that hold and its colour is black; there are no other edges |
| GraphBuilder.FinalEdgesDescribed | posts/graphify/app.py:47-54 | the map left by the double loop, examining ordered pairs in loop order, satisfies the edge description |
| GraphBuilder.ExamineHit | posts/graphify/app.py:50-54 | a hit on a pair of different artists (the function `Hit`: the `has_edge` test, then an increment or `add_edge`) creates its edge with weight 1 or increments the existing one, and changes no other pair's entry |
| GraphBuilder.BuildGraph | posts/graphify/app.py:39-54 | for artists with distinct names, the built graph satisfies the node and edge descriptions |
| GraphSpec.EdgeWitness | posts/graphify/app.py:47-54 | every edge belongs to a pair of different artists with at least one mention, and carries that pair's weight |
| GraphSpec.EdgeWeightOneOrTwo | posts/graphify/app.py:50-54 | every edge of a map meeting the edge description, which the builder meets for distinct names, is black and has weight 1 or 2 |
| GraphSpec.WeightCountsDirections | posts/graphify/app.py:47-54 | for different artists: no edge iff neither names the other; weight 1 iff exactly one direction holds; weight 2 iff both do |
| GraphSpec.NoSelfLoops | posts/graphify/app.py:49 | with distinct names every edge joins two different names |
| GraphSpec.EdgesJoinNodes | posts/graphify/app.py:42-54 | both endpoints of every edge are nodes, so a related name that is no top artist adds no node and no edge |
| GraphSpec.NoMentionsNoEdges | posts/graphify/app.py:50 | if no artist names another top artist, the graph has no edges |
| GraphSpec.EmptyRelatedNoEdges | posts/graphify/app.py:50 | if every related list is empty, the graph has no edges |
| GraphSpec.MentionEdgesUnique | posts/graphify/app.py:47-54 | the edge description has one solution: the edge map is determined by the names and related lists |
| GraphSpec.ArtistNodesUnique | posts/graphify/app.py:42-43 | the node description has one solution |
| GraphSpec.NodeOfEachArtist | posts/graphify/app.py:42-43 | with distinct names, each artist's node carries exactly that artist's image, size 40 and shape `circularImage` |
| GraphSpec.UnknownRelatedNameIgnored | posts/graphify/app.py:50 | appending a name that is no top artist to a related list changes no edge |
| GraphSpec.RepeatedRelatedNameIgnored | posts/graphify/app.py:50 | listing a name twice in one related list changes no edge: membership, not count, decides each direction |
| GraphSpec.MutualPairExample | posts/graphify/app.py:47-54 | A and B naming each other give one edge {A, B} of weight 2; C, naming nobody, has no edge |
| GraphSpec.TriangleExample | posts/graphify/app.py:47-54 | A names B, B names C, C names A: three edges of weight 1 |
| App.CollectArtists | posts/graphify/app.py:115-122 | the collected artists have the response's names and first-image URLs, and related lists from the cache (missing entries left empty) or from the endpoint |
| App.Graphify | posts/graphify/app.py:103-140 | the graph of the script is the similarity graph of the first `nArtists` response items with the collected related lists; fetched lists are returned for saving only when there was no cache |

## Left out

- The streaming-service client, OAuth and the two endpoints are not modelled. They are network I/O, and their responses are inputs here.
- Environment configuration (dotenv, the `SPOTIFY_*` variables) is not modelled. It is configuration plumbing.
- JSON save and load, and the `os.path.exists` checks, are not modelled. This includes reading the top artists back from `top_artists_data.json` (app.py lines 108-112). A cache is an `Option` input; a save is a returned value.
- Betweenness centrality is not modelled. It is a call into networkx and returns floating-point values.
- The HTML rendering (pyvis), the matplotlib import and the `print` calls are not modelled. They are output only.
- The first script block (app.py lines 27-63) is not modelled separately. It is the second block with other constants, fetching related lists through `CollectRelatedArtists`.
- GraphBuilder.AddMentionEdges: it requires distinct artist names, and it reads each pair as positions `i != j` rather than as two objects. The code checks neither; with distinct names, different positions hold different objects. With a repeated name the code merges the namesakes' nodes, an artist naming its namesake gets a one-name edge {X}, and a weight can exceed 2 (for names X, X, Y where both X name Y and Y names X, the edge {X, Y} ends with weight 4); the weight bound of `GraphSpec.EdgeWeightOneOrTwo` holds only for distinct names.
- DataFunctions.AssignLoadedRelated: it requires each artist object to occur once in the list. With a repeated object, `zip` would leave it with the last of its lists.
- DataFunctions.CollectTopArtists: requires at least `nArtists` items, each with an image. The code would raise an index error otherwise, and that path is not modelled.
- Python list aliasing is not modelled. A related list given to the constructor, or loaded from the cache, is shared with the caller in Python. Here it is a value.
- The popularity range 0 to 100 is documented but never checked. It is the predicate `PopularityInDocumentedRange`, not a class invariant.
