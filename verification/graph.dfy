/** The canonical graph representation every domain entity is projected into:
    provenance records, nodes with a property bag, directed typed edges, and
    the one normalization rule all entity variants share. */
module Graph {

  /** Node and edge identities. The library draws them from a random UUID
      generator; here they come from a counter, which is what makes them
      provably distinct. */
  type Id = int

  /** A scalar property value: the entities carry text and whole numbers. */
  datatype Scalar = Str(s: string) | Int(i: int)

  /** Which plugin, table and row produced a fact. */
  datatype SourceRef = SourceRef(pluginName: string, sourceTable: string, sourceLocator: string)

  datatype GraphNode = GraphNode(id: Id, typeLabel: string, properties: map<string, Scalar>, sources: seq<SourceRef>)

  datatype GraphEdge = GraphEdge(id: Id, sourceId: Id, targetId: Id, relationType: string, properties: map<string, Scalar>)

  /** The longest display name a node carries. */
  const NameMaxLength: nat := 50

  function Min(a: int, b: int): int { if a <= b then a else b }

  /** The first `n` characters of `s` (all of `s` when it is shorter):
      no ellipsis, no word-boundary adjustment. */
  function Truncate(s: string, n: nat): (r: string)
    ensures r <= s
    ensures |r| == Min(|s|, n)
  {
    if |s| <= n then s else s[..n]
  }

  /** `name` is the display name derived from the display field `field`:
      the field itself, cut to at most NameMaxLength characters. */
  ghost predicate DisplayNameOf(name: string, field: string)
  {
    name <= field && |name| == Min(|field|, NameMaxLength)
  }

  /** A display name is determined by the field it is derived from. */
  lemma DisplayNameUnique(a: string, b: string, field: string)
    requires DisplayNameOf(a, field) && DisplayNameOf(b, field)
    ensures a == b
  {
    assert a == field[..|a|] && b == field[..|b|];
  }

  /** The normalization rule every entity variant follows. `fields` are the
      entity's own fields under their own names; `nameFrom` is the field whose
      text becomes the uniform `name` property ("name" itself when the entity
      already has one, which is then kept verbatim). Identity lives outside
      the property bag, and provenance is passed through as given. */
  function Normalize(typeLabel: string, fields: map<string, Scalar>, nameFrom: string,
                     id: Id, sources: seq<SourceRef>): (n: GraphNode)
    requires typeLabel != ""
    requires nameFrom in fields && fields[nameFrom].Str?
    ensures n.id == id && n.typeLabel == typeLabel && n.typeLabel != "" && n.sources == sources
    ensures "id" !in n.properties
    ensures n.properties.Keys == fields.Keys - {"id"} + {"name"}
    ensures forall k :: k in fields && k != "id" && k != "name" ==> n.properties[k] == fields[k]
    ensures n.properties["name"].Str?
    ensures nameFrom == "name" ==> n.properties["name"] == fields["name"]
    ensures nameFrom != "name" ==> DisplayNameOf(n.properties["name"].s, fields[nameFrom].s)
  {
    var kept := fields - {"id"};
    var props := if nameFrom == "name" then kept
                 else kept["name" := Str(Truncate(fields[nameFrom].s, NameMaxLength))];
    GraphNode(id, typeLabel, props, sources)
  }
}
