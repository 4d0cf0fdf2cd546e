/** The relationship-type registry: which kind of node a relationship tag
    points at, and which property identifies such a node. */
module RelationshipTypes {
  import opened JsValues

  /** The node label and identifying property a known tag resolves to. */
  datatype Target = Target(kind: string, idField: string)

  /** The registry as a table, one entry per known tag. */
  const Registry: map<string, Target> := map[
    "FOLLOWS" := Target("User", "facebookID"),
    "WRITES" := Target("Review", "reviewID"),
    "ISLOCAL" := Target("Place", "place_id")
  ]

  predicate Known(relationshipType: JsValue)
  {
    relationshipType.Str? && relationshipType.s in Registry
  }

  /** The array `[thingType, idType]`; an unset local reads as `undefined`. */
  datatype TypePair = TypePair(thingType: JsValue, idType: JsValue)

  /** `chooseTypes`: an if-chain of strict comparisons against the three
      tags. A known tag yields its table entry as two strings; any other
      value, including a non-string, leaves both components undefined. */
  function ChooseTypes(relationshipType: JsValue): (types: TypePair)
    ensures Known(relationshipType) ==>
      types == TypePair(Str(Registry[relationshipType.s].kind), Str(Registry[relationshipType.s].idField))
    ensures !Known(relationshipType) ==> types == TypePair(Undefined, Undefined)
  {
    if relationshipType == Str("FOLLOWS") then TypePair(Str("User"), Str("facebookID"))
    else if relationshipType == Str("WRITES") then TypePair(Str("Review"), Str("reviewID"))
    else if relationshipType == Str("ISLOCAL") then TypePair(Str("Place"), Str("place_id"))
    else TypePair(Undefined, Undefined)
  }

  /** The registry knows exactly the three tags. */
  lemma KnownTags(relationshipType: JsValue)
    ensures Known(relationshipType) <==>
      relationshipType in {Str("FOLLOWS"), Str("WRITES"), Str("ISLOCAL")}
  {
  }

  /** Whatever the tag, neither component of the pair, written as text,
      contains a line break. */
  lemma TypeNamesOneLine(relationshipType: JsValue)
    ensures '\n' !in ToJsString(ChooseTypes(relationshipType).thingType)
    ensures '\n' !in ToJsString(ChooseTypes(relationshipType).idType)
  {
  }
}
