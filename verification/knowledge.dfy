/** The knowledge domain: people, their works and quotations, each projected
    into a graph node by the shared normalization rule. */
module Knowledge {
  import opened Graph
  import opened Relations

  datatype Entity =
    | Person(name: string, role: string, era: string)
    | Work(title: string, authorName: string, year: int)
    | Quote(text: string)

  /** The fixed type tag of each variant. */
  function Label(e: Entity): (l: string)
    ensures l != ""
  {
    match e
    case Person(_, _, _) => "Person"
    case Work(_, _, _) => "Work"
    case Quote(_) => "Quote"
  }

  /** The entity's own fields under their own names. */
  function Fields(e: Entity): map<string, Scalar>
  {
    match e
    case Person(name, role, era) => map["name" := Str(name), "role" := Str(role), "era" := Str(era)]
    case Work(title, authorName, year) => map["title" := Str(title), "author_name" := Str(authorName), "year" := Int(year)]
    case Quote(text) => map["text" := Str(text)]
  }

  /** The display-name rule table: the field `name` is taken from. */
  function NameSource(e: Entity): (k: string)
    ensures k in Fields(e) && Fields(e)[k].Str?
  {
    match e
    case Person(_, _, _) => "name"
    case Work(_, _, _) => "title"
    case Quote(_) => "text"
  }

  /** The text the display name comes from. */
  function DisplayField(e: Entity): string
  {
    match e
    case Person(name, _, _) => name
    case Work(title, _, _) => title
    case Quote(text) => text
  }

  /** `to_graph_node`: the caller supplies the fresh identity and the
      provenance, which defaults to none. Every node carries its variant's
      label, no `id` property, all of the entity's fields, and a textual `name`. */
  function ToGraphNode(e: Entity, id: Id, sources: seq<SourceRef> := []): (n: GraphNode)
    ensures n.id == id && n.sources == sources
    ensures n.typeLabel == Label(e)
    ensures "id" !in n.properties
    ensures n.properties.Keys == Fields(e).Keys + {"name"}
    ensures forall k :: k in Fields(e) && k != "name" ==> n.properties[k] == Fields(e)[k]
    ensures n.properties["name"].Str?
  {
    Normalize(Label(e), Fields(e), NameSource(e), id, sources)
  }

  /** A Person keeps exactly its three fields, verbatim; `name` is not cut. */
  lemma PersonNode(name: string, role: string, era: string, id: Id, sources: seq<SourceRef>)
    ensures var n := ToGraphNode(Person(name, role, era), id, sources);
      && n.typeLabel == "Person"
      && n.properties == map["name" := Str(name), "role" := Str(role), "era" := Str(era)]
  {
    var n := ToGraphNode(Person(name, role, era), id, sources);
    assert n.properties.Keys == {"name", "role", "era"};
  }

  /** A Work keeps its title under `title` and also exposes it as `name`
      (cut to NameMaxLength characters); author and year are kept. */
  lemma WorkNode(title: string, authorName: string, year: int, id: Id, sources: seq<SourceRef>)
    ensures var n := ToGraphNode(Work(title, authorName, year), id, sources);
      && n.typeLabel == "Work"
      && n.properties.Keys == {"title", "author_name", "year", "name"}
      && n.properties["title"] == Str(title)
      && n.properties["author_name"] == Str(authorName)
      && n.properties["year"] == Int(year)
      && DisplayNameOf(n.properties["name"].s, title)
      && (|title| <= NameMaxLength ==> n.properties["name"] == Str(title))
  {
  }

  /** A Quote's `name` is the first NameMaxLength characters of its text;
      the text itself stays whole under `text`. */
  lemma QuoteNode(text: string, id: Id, sources: seq<SourceRef>)
    ensures var n := ToGraphNode(Quote(text), id, sources);
      && n.typeLabel == "Quote"
      && n.properties["text"] == Str(text)
      && n.properties["name"].s == text[..Min(|text|, NameMaxLength)]
      && |n.properties["name"].s| <= NameMaxLength
      && (|text| <= NameMaxLength ==> n.properties["name"].s == text)
  {
    var nm := ToGraphNode(Quote(text), id, sources).properties["name"].s;
    assert nm == text[..|nm|];
  }

  /** For every variant, `name` is the display field's text, cut to
      NameMaxLength characters when the variant derives it from another field. */
  lemma UniformName(e: Entity, id: Id, sources: seq<SourceRef>)
    ensures var nm := ToGraphNode(e, id, sources).properties["name"].s;
      if e.Person? then nm == DisplayField(e) else DisplayNameOf(nm, DisplayField(e))
  {
    match e
    case Person(name, role, era) => PersonNode(name, role, era, id, sources);
    case Work(title, authorName, year) => WorkNode(title, authorName, year, id, sources);
    case Quote(text) => QuoteNode(text, id, sources);
  }

  // The scenarios of the domain test, one section each.

  method PersonScenario()
  {
    var p := ToGraphNode(Person("Sun Tzu", "General", "Ancient China"), 0);
    assert p.typeLabel == "Person";
    assert p.properties["name"] == Str("Sun Tzu");
    assert p.properties["role"] == Str("General");
    assert "id" !in p.properties;
    assert p.sources == [];
  }

  method WorkScenario()
  {
    var ref := SourceRef("plugin_a", "table_b", "row_1");
    var w := ToGraphNode(Work("The Art of War", "Sun Tzu", -500), 1, [ref]);
    WorkNode("The Art of War", "Sun Tzu", -500, 1, [ref]);
    assert w.properties["title"] == Str("The Art of War");
    assert w.properties["name"] == Str("The Art of War");
    assert |w.sources| == 1 && w.sources[0].pluginName == "plugin_a";
  }

  method QuoteScenario()
  {
    // The test's 121-character text, written as its first 50 characters and the rest.
    var head := "The art of war is of vital importance to the State";
    var longText := head + ". It is a matter of life and death, a road either to safety or to ruin.";
    assert |longText| == 121 && longText[..50] == head;
    var q := ToGraphNode(Quote(longText), 2);
    QuoteNode(longText, 2, []);
    var name := q.properties["name"].s;
    assert |name| <= 50 && name == longText[..50];
  }

  method RegistryScenario()
  {
    var rels := KnowledgeAll();
    assert "AUTHORED" in rels && "DISCUSSES" in rels;
  }
}
