/** The structure domain's entities: a document and the ordered segments of
    its text, each projected into a graph node. */
module Structure {
  import opened Graph

  /** The property keys of each kind of node. */
  const DocumentKeys: set<string> := {"title", "media_type", "name"}
  const SegmentKeys: set<string> := {"index", "text", "role", "name"}

  datatype Document = Document(title: string, mediaType: string)

  /** `index` is the segment's position in its document, kept as data so that
      the order survives any later reordering of the node list. */
  datatype Segment = Segment(index: int, text: string, role: string)

  function DocumentFields(d: Document): map<string, Scalar>
  {
    map["title" := Str(d.title), "media_type" := Str(d.mediaType)]
  }

  function SegmentFields(s: Segment): map<string, Scalar>
  {
    map["index" := Int(s.index), "text" := Str(s.text), "role" := Str(s.role)]
  }

  /** A Document node: labelled "Document", with the caller's identity and provenance. */
  function DocumentNode(d: Document, id: Id, sources: seq<SourceRef>): (n: GraphNode)
    ensures n.id == id && n.sources == sources && n.typeLabel == "Document"
  {
    GraphNode(id, "Document", DocumentFields(d)["name" := Str(Truncate(d.title, NameMaxLength))], sources)
  }

  /** A Segment node: labelled "Segment", with the caller's identity and provenance. */
  function SegmentNode(s: Segment, id: Id, sources: seq<SourceRef>): (n: GraphNode)
    ensures n.id == id && n.sources == sources && n.typeLabel == "Segment"
  {
    GraphNode(id, "Segment", SegmentFields(s)["name" := Str(Truncate(s.text, NameMaxLength))], sources)
  }

  /** A Document node keeps title and media type, takes its display name from
      the title, and has no other property (in particular no `id`). */
  lemma DocumentNodeProperties(d: Document, id: Id, sources: seq<SourceRef>)
    ensures var n := DocumentNode(d, id, sources);
      && n.properties.Keys == DocumentKeys
      && "id" !in n.properties
      && n.properties["title"] == Str(d.title) && n.properties["media_type"] == Str(d.mediaType)
      && n.properties["name"].Str? && DisplayNameOf(n.properties["name"].s, d.title)
  {
  }

  /** A Segment node keeps index, text and role, takes its display name from
      the text, and has no other property (in particular no `id`). */
  lemma SegmentNodeProperties(s: Segment, id: Id, sources: seq<SourceRef>)
    ensures var n := SegmentNode(s, id, sources);
      && n.properties.Keys == SegmentKeys
      && "id" !in n.properties
      && n.properties["index"] == Int(s.index)
      && n.properties["text"] == Str(s.text) && n.properties["role"] == Str(s.role)
      && n.properties["name"].Str? && DisplayNameOf(n.properties["name"].s, s.text)
  {
  }

  /** Document and Segment nodes are exactly what the shared normalization
      rule makes of their fields, with the title and the text as display fields. */
  lemma FollowNormalizationRule(d: Document, s: Segment, id: Id, sources: seq<SourceRef>)
    ensures DocumentNode(d, id, sources) == Normalize("Document", DocumentFields(d), "title", id, sources)
    ensures SegmentNode(s, id, sources) == Normalize("Segment", SegmentFields(s), "text", id, sources)
  {
    assert DocumentFields(d) - {"id"} == DocumentFields(d);
    assert SegmentFields(s) - {"id"} == SegmentFields(s);
  }
}
