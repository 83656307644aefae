/** The closed catalogues of relation-type tags, one per domain. */
module Relations {

  // Structure domain: how a document is made of ordered segments.
  const PART_OF: string := "PART_OF"
  const NEXT: string := "NEXT"
  const STARTS_WITH: string := "STARTS_WITH"

  // Knowledge domain.
  const AUTHORED: string := "AUTHORED"
  const DISCUSSES: string := "DISCUSSES"

  /** Every tag of the structure domain; the three are distinct. */
  function StructureAll(): (tags: set<string>)
    ensures PART_OF in tags && NEXT in tags && STARTS_WITH in tags
    ensures |tags| == 3
  {
    {PART_OF, NEXT, STARTS_WITH}
  }

  /** The knowledge-domain tags this model knows of. */
  function KnowledgeAll(): (tags: set<string>)
    ensures AUTHORED in tags && DISCUSSES in tags
    ensures tags !! StructureAll()
  {
    {AUTHORED, DISCUSSES}
  }
}
