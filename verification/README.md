# cjm-graph-domains in Dafny

This project models the core of cjm-graph-domains. The library turns
plugin-defined domain entities into one canonical graph: typed nodes that
carry a property bag and their provenance, joined by typed, directed edges.
The model covers two parts.

- **Normalization.** Person, Work and Quote (the knowledge domain) and
  Document and Segment (the structure domain) each become a `GraphNode`.
  The node has the variant's fixed label and the entity's fields under
  their own names. It never has an `id` property. It always has a `name`
  property: Work takes it from `title` and Quote from `text`, cut to the
  first 50 characters. The caller's provenance records are kept unchanged.
  One shared rule, `Graph.Normalize`, states this. Person, Work and Quote
  go through it directly. `Structure.FollowNormalizationRule` proves that
  Document and Segment nodes are exactly what that rule gives.
- **The structural spine builder** (`Spine.BuildSpine`). This is an
  imperative loop over the segment descriptors. It starts the node list
  with the document node. For each segment it appends the segment node,
  then a `PART_OF` edge to the document, then either a `STARTS_WITH` edge
  from the document (first segment) or a `NEXT` edge from the previous
  segment's node. It keeps `previous` equal to the most recently appended
  node (a loop invariant). The loop is proved against the recursive
  reference functions `SpineNodes` and `SpineEdges`. The lemmas beside
  them give:
  - the edge counts;
  - the endpoints of every edge;
  - that segment order can be read back from the `index` property;
  - well-formedness: no dangling references, distinct identities, and
    only tags from the structure registry.

Modules: `Graph` (types, truncation, the normalization rule), `Relations`
(the two tag registries), `Knowledge`, `Structure`, `Spine`.

Identities. The library draws node and edge ids from a random UUID
generator. Here they come from a counter that the builder starts at
`firstId`. It returns the next unused value, so a caller can keep drawing
ids without a collision. Normalization takes the identity as a parameter.

The library's design calls for normalization to fail on a missing
required field. Neither tests_manual/test_domains.py nor
tests_manual/test_structure_domain.py exercises a missing field, so that
failure is not modelled (see below).

Provenance. `to_graph_node` takes its sources as an optional argument
(tests_manual/test_domains.py:27 and :68 call it without one, :48 with
`sources=[ref]`). `Knowledge.ToGraphNode` gives its `sources` parameter the
default `[]`, the empty provenance list.

## Model

| member | source | states |
|---|---|---|
| `Graph.Truncate` | tests_manual/test_domains.py:66-72 | the result is a prefix of the input and has length min(len, n): the first n characters, or the whole text when it is shorter |
| `Graph.DisplayNameUnique` | tests_manual/test_domains.py:72 | the display-name property allows exactly one string for a given field, so `name == text[:50]` is fully determined |
| `Graph.Normalize` | tests_manual/test_domains.py:23-72 | the shared rule: identity, label and sources pass through; no `id` key; every other field kept verbatim; `name` is present, kept as-is when the entity has its own `name`, otherwise derived from the display field and cut to 50 characters |
| `Relations.StructureAll` | tests_manual/test_structure_domain.py:49-73 | the structure registry holds `PART_OF`, `NEXT` and `STARTS_WITH`, three distinct tags |
| `Relations.KnowledgeAll` | tests_manual/test_domains.py:75-81 | the knowledge registry contains `AUTHORED` and `DISCUSSES` and shares no tag with the structure registry |
| `Knowledge.Label` | tests_manual/test_domains.py:31 | every variant has a non-empty fixed label |
| `Knowledge.NameSource` | tests_manual/test_domains.py:53-55 | the display-name rule table names a textual field the entity has (`name`, `title` or `text`) |
| `Knowledge.ToGraphNode` | tests_manual/test_domains.py:27-57 | the node carries the given id and sources unchanged and the variant's label; it has no `id` key; its keys are the entity's fields plus `name`; every field other than `name` is kept verbatim; `name` is text |
| `Knowledge.PersonNode` | tests_manual/test_domains.py:23-34 | a Person node is labelled "Person" and its properties are exactly `name`, `role`, `era`, verbatim |
| `Knowledge.WorkNode` | tests_manual/test_domains.py:45-57 | a Work node keeps `title`, `author_name` and `year` and adds `name`, the title cut to 50 characters; `name == title` when the title is short |
| `Knowledge.QuoteNode` | tests_manual/test_domains.py:66-72 | a Quote node keeps the full text under `text`; `name` is `text[:50]`, at most 50 characters long, and equals the text when it is short |
| `Knowledge.UniformName` | tests_manual/test_domains.py:32-72 | every variant exposes `name`: a Person's own name, or the display field cut to 50 characters |
| `Structure.DocumentNode` | tests_manual/test_structure_domain.py:23-25 | the document node carries the given id and sources and is labelled "Document" |
| `Structure.SegmentNode` | tests_manual/test_structure_domain.py:42-43 | a segment node carries the given id and sources and is labelled "Segment" |
| `Structure.DocumentNodeProperties` | tests_manual/test_structure_domain.py:23-25 | a document node keeps `title` and `media_type`, derives `name` from the title, and has no `id` and no other key |
| `Structure.SegmentNodeProperties` | tests_manual/test_structure_domain.py:42-43 | a segment node keeps `index`, `text` and `role`, derives `name` from the text, and has no `id` and no other key |
| `Structure.FollowNormalizationRule` | tests_manual/test_structure_domain.py:24-43 | Document and Segment nodes equal what the shared normalization rule makes of their fields |
| `Spine.SpineNodes` | tests_manual/test_structure_domain.py:34-44 | after k segments the node list has k+1 entries and the document node first |
| `Spine.SpineEdges` | tests_manual/test_structure_domain.py:49-76 | after k segments the edge list has 2k entries |
| `Spine.SpineNodesAt` | tests_manual/test_structure_domain.py:40-44 | node j+1 is segment j's node, built with index j from the j-th descriptor |
| `Spine.SpineEdgesAt` | tests_manual/test_structure_domain.py:49-73 | edges 2j and 2j+1 are segment j's PART_OF edge and its STARTS_WITH/NEXT edge |
| `Spine.SpineNodeId` | tests_manual/test_structure_domain.py:43-44 | node p's id is the document's id for p = 0, else the id drawn for segment p-1 |
| `Spine.SpineEdgeAt` | tests_manual/test_structure_domain.py:49-73 | edge q is the PART_OF edge (q even) or the link edge (q odd) of segment q/2 |
| `Spine.CountAppend` | tests_manual/test_structure_domain.py:81 | counting edges of one relation type distributes over concatenation |
| `Spine.CountPair` | tests_manual/test_structure_domain.py:49-73 | the count over one segment's two edges is the sum over each edge |
| `Spine.SpineCounts` | tests_manual/test_structure_domain.py:80-81 | n segments give n PART_OF, min(n,1) STARTS_WITH and max(n-1,0) NEXT edges, 2n in all |
| `Spine.SpineLinks` | tests_manual/test_structure_domain.py:49-85 | every STARTS_WITH edge goes from the document node to the first segment's node; each PART_OF edge goes from segment j's node to the document; each NEXT edge goes from segment j-1's node to segment j's |
| `Spine.SpineSegmentsInOrder` | tests_manual/test_structure_domain.py:40-44 | node p (p ≥ 1) is a Segment with index p-1 and the text, role and provenance of descriptor p-1 |
| `Spine.SpineWellFormed` | tests_manual/test_structure_domain.py:43-76 | no dangling references, all node and edge ids distinct, every tag in the structure registry, all ids drawn from [first, first+1+3k) |
| `Spine.BuildSpine` | tests_manual/test_structure_domain.py:34-76 | the loop yields exactly the reference node and edge lists `SpineNodes` and `SpineEdges`, so every property proved of those (counts, links, order, well-formedness) holds of its output; the returned counter is just past every id it handed out |

The methods `Knowledge.PersonScenario`, `WorkScenario`, `QuoteScenario`,
`RegistryScenario` and `Spine.StructureScenario` restate the assertions of
the two test scripts as checked assertions about the model. They have no
contract of their own.

## Left out

- Console output (`title`, `print`), the `sys.path` set-up, the `__main__` drivers and the try/except re-raise blocks: plumbing with no logic.
- Random UUIDs: replaced by a counter, which gives identities that are provably distinct. Normalization receives its identity from the caller.
- The library modules defining `Person`, `Work`, `Quote`, `Document`, `Segment`, `SourceRef`, `GraphNode`, `GraphEdge` and the relation registries are not part of this model. Those types are modelled only as far as the two test scripts observe them.
- `Concept` is imported by the domain test but never used: not modelled.
- `KnowledgeRelations.all()` may hold more tags than `AUTHORED` and `DISCUSSES`; only those two are asserted (tests_manual/test_domains.py:79-80), so `Relations.KnowledgeAll` holds just them.
- Document and Segment nodes take their `name` from `title` and `text` by the same 50-character rule as Work and Quote. The scripts never read those names, so this follows the library's uniform-name design, not observed behaviour.
- `Structure.DocumentNode`: its contract covers identity, label and provenance only. The properties are stated in `Structure.DocumentNodeProperties`, which keeps the node contents out of every proof about the spine.
- `Structure.SegmentNode`: likewise, its properties are stated in `Structure.SegmentNodeProperties`.
- Validation of missing or empty required fields, and rejection of edges with an unregistered tag or a dangling endpoint: neither test script does this. The model proves instead that the spine builder never produces such an edge.
- Optional entity fields and `None` property values: every field is modelled as present. Property values are text or integers.
- Python string slicing counts code points; the model counts Dafny `char`s.
- Persistence, querying and plugin discovery: not part of the modelled library code.
