/** The structural spine builder: one document node and an ordered list of
    segment descriptors become a node list and an edge list in which every
    segment is PART_OF the document, the document STARTS_WITH the first
    segment, and each later segment follows its predecessor by a NEXT edge. */
module Spine {
  import opened Graph
  import opened Relations
  import opened Structure

  datatype Option<T> = None | Some(value: T)

  /** A raw segment descriptor: its text and its role ("title", "content", ...). */
  datatype RawSegment = RawSegment(text: string, role: string)

  // The counter that replaces random identifiers hands the document node
  // `first`, then three identities per segment, in the order the builder asks:
  // the segment node, its PART_OF edge, and its STARTS_WITH or NEXT edge.

  function SegmentId(first: Id, i: nat): Id { first + 1 + 3 * i }
  function PartOfId(first: Id, i: nat): Id { first + 2 + 3 * i }
  function LinkId(first: Id, i: nat): Id { first + 3 + 3 * i }

  /** The node of segment `i`: built with index `i` from the i-th descriptor. */
  function SegmentNodeAt(raw: seq<RawSegment>, ref: SourceRef, first: Id, i: nat): GraphNode
    requires i < |raw|
  {
    SegmentNode(Segment(i, raw[i].text, raw[i].role), SegmentId(first, i), [ref])
  }

  /** Segment `i` belongs to the document. */
  function PartOfEdge(first: Id, i: nat): GraphEdge
  {
    GraphEdge(PartOfId(first, i), SegmentId(first, i), first, PART_OF, map[])
  }

  /** The document starts with segment 0; every later segment follows the one before. */
  function LinkEdge(first: Id, i: nat): GraphEdge
  {
    if i == 0 then GraphEdge(LinkId(first, 0), first, SegmentId(first, 0), STARTS_WITH, map[])
    else GraphEdge(LinkId(first, i), SegmentId(first, i - 1), SegmentId(first, i), NEXT, map[])
  }

  /** The node list once the first `k` segments are in: the document first,
      then one node per segment in input order. */
  function SpineNodes(doc: Document, raw: seq<RawSegment>, ref: SourceRef, first: Id, k: nat): (ns: seq<GraphNode>)
    requires k <= |raw|
    ensures |ns| == k + 1
    ensures ns[0] == DocumentNode(doc, first, [ref])
  {
    if k == 0 then [DocumentNode(doc, first, [ref])]
    else SpineNodes(doc, raw, ref, first, k - 1) + [SegmentNodeAt(raw, ref, first, k - 1)]
  }

  /** The edge list once the first `k` segments are in: per segment, its
      PART_OF edge followed by its STARTS_WITH or NEXT edge. */
  function SpineEdges(first: Id, k: nat): (es: seq<GraphEdge>)
    ensures |es| == 2 * k
  {
    if k == 0 then []
    else SpineEdges(first, k - 1) + [PartOfEdge(first, k - 1), LinkEdge(first, k - 1)]
  }

  /** How many edges carry relation type `tag`. */
  function CountRelation(es: seq<GraphEdge>, tag: string): nat
  {
    if es == [] then 0
    else (if es[0].relationType == tag then 1 else 0) + CountRelation(es[1..], tag)
  }

  ghost predicate HasNode(nodes: seq<GraphNode>, id: Id)
  {
    exists j :: 0 <= j < |nodes| && nodes[j].id == id
  }

  /** No dangling references: both ends of every edge are nodes of the graph. */
  ghost predicate NoDangling(nodes: seq<GraphNode>, edges: seq<GraphEdge>)
  {
    forall i :: 0 <= i < |edges| ==> HasNode(nodes, edges[i].sourceId) && HasNode(nodes, edges[i].targetId)
  }

  /** Every node and every edge has an identity of its own. */
  ghost predicate DistinctIds(nodes: seq<GraphNode>, edges: seq<GraphEdge>)
  {
    && (forall i, j :: 0 <= i < j < |nodes| ==> nodes[i].id != nodes[j].id)
    && (forall i, j :: 0 <= i < j < |edges| ==> edges[i].id != edges[j].id)
    && (forall i, j :: 0 <= i < |nodes| && 0 <= j < |edges| ==> nodes[i].id != edges[j].id)
  }

  /** Every identity lies in [lo, hi): drawn from that stretch of the counter. */
  ghost predicate IdsWithin(nodes: seq<GraphNode>, edges: seq<GraphEdge>, lo: Id, hi: Id)
  {
    && (forall i :: 0 <= i < |nodes| ==> lo <= nodes[i].id < hi)
    && (forall i :: 0 <= i < |edges| ==> lo <= edges[i].id < hi)
  }

  /** Every edge uses a tag of the structure registry. */
  ghost predicate TagsRegistered(edges: seq<GraphEdge>)
  {
    forall i :: 0 <= i < |edges| ==> edges[i].relationType in StructureAll()
  }

  ghost predicate WellFormed(nodes: seq<GraphNode>, edges: seq<GraphEdge>)
  {
    NoDangling(nodes, edges) && DistinctIds(nodes, edges) && TagsRegistered(edges)
  }

  /** Position `j + 1` of the node list holds segment `j`. */
  lemma {:induction false} SpineNodesAt(doc: Document, raw: seq<RawSegment>, ref: SourceRef, first: Id, k: nat, j: nat)
    requires j < k <= |raw|
    ensures SpineNodes(doc, raw, ref, first, k)[j + 1] == SegmentNodeAt(raw, ref, first, j)
  {
    if j < k - 1 {
      SpineNodesAt(doc, raw, ref, first, k - 1, j);
    }
  }

  /** Positions `2j` and `2j + 1` of the edge list hold segment `j`'s two edges. */
  lemma {:induction false} SpineEdgesAt(first: Id, k: nat, j: nat)
    requires j < k
    ensures SpineEdges(first, k)[2 * j] == PartOfEdge(first, j)
    ensures SpineEdges(first, k)[2 * j + 1] == LinkEdge(first, j)
  {
    if j < k - 1 {
      SpineEdgesAt(first, k - 1, j);
    }
  }

  /** Node `p` is the document (p == 0) or segment p - 1. */
  lemma SpineNodeId(doc: Document, raw: seq<RawSegment>, ref: SourceRef, first: Id, k: nat, p: nat)
    requires k <= |raw| && p <= k
    ensures SpineNodes(doc, raw, ref, first, k)[p].id == if p == 0 then first else SegmentId(first, p - 1)
  {
    if p > 0 {
      SpineNodesAt(doc, raw, ref, first, k, p - 1);
    }
  }

  /** Edge `q` is the PART_OF (q even) or the link (q odd) edge of segment q / 2. */
  lemma SpineEdgeAt(first: Id, k: nat, q: nat)
    requires q < 2 * k
    ensures SpineEdges(first, k)[q] == if q % 2 == 0 then PartOfEdge(first, q / 2) else LinkEdge(first, q / 2)
  {
    SpineEdgesAt(first, k, q / 2);
  }

  lemma {:induction false} CountAppend(a: seq<GraphEdge>, b: seq<GraphEdge>, tag: string)
    ensures CountRelation(a + b, tag) == CountRelation(a, tag) + CountRelation(b, tag)
  {
    if a == [] {
      assert a + b == b;
    } else {
      assert (a + b)[0] == a[0];
      assert (a + b)[1..] == a[1..] + b;
      CountAppend(a[1..], b, tag);
    }
  }

  lemma CountPair(a: GraphEdge, b: GraphEdge, tag: string)
    ensures CountRelation([a, b], tag) == (if a.relationType == tag then 1 else 0) + (if b.relationType == tag then 1 else 0)
  {
    assert [a, b][1..] == [b] && [b][1..] == [];
    assert CountRelation([b], tag) == (if b.relationType == tag then 1 else 0) + CountRelation([], tag);
  }

  /** n segments give n PART_OF edges, min(n, 1) STARTS_WITH edges and
      max(n - 1, 0) NEXT edges, 2n edges in all. */
  lemma {:induction false} SpineCounts(first: Id, k: nat)
    ensures CountRelation(SpineEdges(first, k), PART_OF) == k
    ensures CountRelation(SpineEdges(first, k), STARTS_WITH) == (if k == 0 then 0 else 1)
    ensures CountRelation(SpineEdges(first, k), NEXT) == (if k == 0 then 0 else k - 1)
    ensures |SpineEdges(first, k)| == 2 * k
  {
    if k > 0 {
      SpineCounts(first, k - 1);
      var prev := SpineEdges(first, k - 1);
      var link := LinkEdge(first, k - 1);
      var pair := [PartOfEdge(first, k - 1), link];
      assert SpineEdges(first, k) == prev + pair;
      assert link.relationType == if k == 1 then STARTS_WITH else NEXT;
      CountPair(PartOfEdge(first, k - 1), link, PART_OF);
      CountPair(PartOfEdge(first, k - 1), link, STARTS_WITH);
      CountPair(PartOfEdge(first, k - 1), link, NEXT);
      CountAppend(prev, pair, PART_OF);
      CountAppend(prev, pair, STARTS_WITH);
      CountAppend(prev, pair, NEXT);
    }
  }

  /** Every STARTS_WITH edge leaves the document node and enters the first
      segment's node; every PART_OF edge joins a segment to the document;
      every NEXT edge joins two consecutive segments. */
  lemma SpineLinks(doc: Document, raw: seq<RawSegment>, ref: SourceRef, first: Id, k: nat)
    requires k <= |raw|
    ensures var nodes, edges := SpineNodes(doc, raw, ref, first, k), SpineEdges(first, k);
      && (forall q :: 0 <= q < |edges| && edges[q].relationType == STARTS_WITH ==>
            edges[q].sourceId == nodes[0].id && edges[q].targetId == nodes[1].id)
      && (forall j :: 0 <= j < k ==>
            edges[2 * j].relationType == PART_OF &&
            edges[2 * j].sourceId == nodes[j + 1].id && edges[2 * j].targetId == nodes[0].id)
      && (forall j :: 0 < j < k ==>
            edges[2 * j + 1].relationType == NEXT &&
            edges[2 * j + 1].sourceId == nodes[j].id && edges[2 * j + 1].targetId == nodes[j + 1].id)
  {
    var nodes, edges := SpineNodes(doc, raw, ref, first, k), SpineEdges(first, k);
    forall q | 0 <= q < |edges| && edges[q].relationType == STARTS_WITH
      ensures edges[q].sourceId == nodes[0].id && edges[q].targetId == nodes[1].id
    {
      SpineEdgeAt(first, k, q);
      SpineNodeId(doc, raw, ref, first, k, 1);
    }
    forall j | 0 <= j < k
      ensures edges[2 * j].relationType == PART_OF
      ensures edges[2 * j].sourceId == nodes[j + 1].id && edges[2 * j].targetId == nodes[0].id
    {
      SpineEdgesAt(first, k, j);
      SpineNodeId(doc, raw, ref, first, k, j + 1);
    }
    forall j | 0 < j < k
      ensures edges[2 * j + 1].relationType == NEXT
      ensures edges[2 * j + 1].sourceId == nodes[j].id && edges[2 * j + 1].targetId == nodes[j + 1].id
    {
      SpineEdgesAt(first, k, j);
      SpineNodeId(doc, raw, ref, first, k, j);
      SpineNodeId(doc, raw, ref, first, k, j + 1);
    }
  }

  /** Node `p` (p >= 1) is segment p - 1: it carries index p - 1 and that
      descriptor's text and role, so input order is recoverable from the data. */
  lemma SpineSegmentsInOrder(doc: Document, raw: seq<RawSegment>, ref: SourceRef, first: Id, k: nat)
    requires k <= |raw|
    ensures SpineNodes(doc, raw, ref, first, k)[0].typeLabel == "Document"
    ensures var nodes := SpineNodes(doc, raw, ref, first, k);
      forall p :: 1 <= p < |nodes| ==>
        && nodes[p].typeLabel == "Segment"
        && nodes[p].sources == [ref]
        && "index" in nodes[p].properties && nodes[p].properties["index"] == Int(p - 1)
        && "text" in nodes[p].properties && nodes[p].properties["text"] == Str(raw[p - 1].text)
        && "role" in nodes[p].properties && nodes[p].properties["role"] == Str(raw[p - 1].role)
  {
    var nodes := SpineNodes(doc, raw, ref, first, k);
    forall p | 1 <= p < |nodes|
      ensures nodes[p].typeLabel == "Segment" && nodes[p].sources == [ref]
      ensures "index" in nodes[p].properties && "text" in nodes[p].properties && "role" in nodes[p].properties
      ensures nodes[p].properties["index"] == Int(p - 1)
      ensures nodes[p].properties["text"] == Str(raw[p - 1].text)
      ensures nodes[p].properties["role"] == Str(raw[p - 1].role)
    {
      SpineNodesAt(doc, raw, ref, first, k, p - 1);
      SegmentNodeProperties(Segment(p - 1, raw[p - 1].text, raw[p - 1].role), SegmentId(first, p - 1), [ref]);
    }
  }

  /** The assembled graph is well formed: no dangling references, distinct
      identities, registered tags, and all identities drawn from the counter
      between `first` and the next unused value. */
  lemma SpineWellFormed(doc: Document, raw: seq<RawSegment>, ref: SourceRef, first: Id, k: nat)
    requires k <= |raw|
    ensures WellFormed(SpineNodes(doc, raw, ref, first, k), SpineEdges(first, k))
    ensures IdsWithin(SpineNodes(doc, raw, ref, first, k), SpineEdges(first, k), first, first + 1 + 3 * k)
  {
    var nodes, edges := SpineNodes(doc, raw, ref, first, k), SpineEdges(first, k);
    // Closed forms of every identity.
    forall p | 0 <= p < |nodes|
      ensures nodes[p].id == if p == 0 then first else first + 3 * p - 2
    {
      SpineNodeId(doc, raw, ref, first, k, p);
    }
    forall q | 0 <= q < |edges|
      ensures edges[q].id == first + 2 + 3 * (q / 2) + q % 2
      ensures edges[q].relationType in StructureAll()
      ensures HasNode(nodes, edges[q].sourceId) && HasNode(nodes, edges[q].targetId)
    {
      var j := q / 2;
      SpineEdgeAt(first, k, q);
      SpineNodeId(doc, raw, ref, first, k, 0);
      SpineNodeId(doc, raw, ref, first, k, j + 1);
      if j > 0 {
        SpineNodeId(doc, raw, ref, first, k, j);
      }
    }
  }

  /** The builder. The node list starts as [document]; each pass appends the
      segment's node, then its PART_OF edge, then a STARTS_WITH edge from the
      document (first pass) or a NEXT edge from the previous segment's node. */
  method BuildSpine(doc: Document, raw: seq<RawSegment>, ref: SourceRef, firstId: Id)
    returns (nodes: seq<GraphNode>, edges: seq<GraphEdge>, nextId: Id)
    ensures nodes == SpineNodes(doc, raw, ref, firstId, |raw|)
    ensures edges == SpineEdges(firstId, |raw|)
    ensures nextId == firstId + 1 + 3 * |raw|
  {
    var next := firstId;  // the fresh-identity counter
    var docNode := DocumentNode(doc, next, [ref]);
    next := next + 1;
    nodes := [docNode];
    edges := [];
    var previous: Option<GraphNode> := None;
    for i := 0 to |raw|
      invariant next == SegmentId(firstId, i)
      invariant nodes == SpineNodes(doc, raw, ref, firstId, i)
      invariant edges == SpineEdges(firstId, i)
      invariant previous == if i == 0 then None else Some(nodes[|nodes| - 1])
    {
      var seg := Segment(i, raw[i].text, raw[i].role);
      var segNode := SegmentNode(seg, next, [ref]);
      next := next + 1;
      nodes := nodes + [segNode];

      edges := edges + [GraphEdge(next, segNode.id, docNode.id, PART_OF, map[])];
      next := next + 1;

      if previous.Some? {
        edges := edges + [GraphEdge(next, previous.value.id, segNode.id, NEXT, map[])];
      } else {
        edges := edges + [GraphEdge(next, docNode.id, segNode.id, STARTS_WITH, map[])];
      }
      next := next + 1;
      assert edges == SpineEdges(firstId, i) + [PartOfEdge(firstId, i), LinkEdge(firstId, i)];

      previous := Some(segNode);
    }
    nextId := next;
  }

  /** The scenario of the structure test: a document and three segments give
      four nodes and six edges, and the STARTS_WITH edge leaves the document. */
  method StructureScenario()
  {
    var ref := SourceRef("plugin_test", "transcriptions", "job_123");
    var doc := Document("1. Laying Plans", "audio");
    var raw := [
      RawSegment("Laying Plans", "title"),
      RawSegment("Sun Tzu said,", "content"),
      RawSegment("The art of war is of vital importance to the State.", "content")
    ];
    var nodes, edges, _ := BuildSpine(doc, raw, ref, 0);
    assert |nodes| == 4;
    assert |edges| == 3 + 3;
    SpineCounts(0, 3);
    SpineLinks(doc, raw, ref, 0, 3);
    SpineEdgesAt(0, 3, 0);
    // The first STARTS_WITH edge in the list is the second edge.
    assert edges[0].relationType != STARTS_WITH && edges[1].relationType == STARTS_WITH;
    assert edges[1].sourceId == nodes[0].id;
    SpineWellFormed(doc, raw, ref, 0, 3);
    assert WellFormed(nodes, edges);
  }
}
