/** The Cypher text and parameters each user-model operation hands to the
    graph store. Every text is an array of lines joined with a line break;
    the relationship operations splice names into some of the lines. */
module Queries {
  import opened JsValues
  import opened Lines
  import opened RelationshipTypes

  /** A parameterised query: its text and its parameter object. */
  datatype Query = Query(text: string, params: JsObject)

  // Lines longer than forty characters are written as concatenations of
  // shorter literals, which the verifier can inspect character by character.

  const CreateUniqueUserLines: seq<string> := [
    "MERGE (user:User " + "{facebookID: {facebookID}})",
    "SET user.name = {name}, " + "user.email={email}, " + "user.facebookToken={facebookToken}",
    "RETURN user"
  ]

  const FindLines: seq<string> := [
    "MATCH (user:User " + "{facebookID: {facebookID}})",
    "RETURN user"
  ]

  const DeleteUserLines: seq<string> := [
    "MATCH (user:User " + "{facebookID: {facebookID}})",
    "DELETE user"
  ]

  const FindRelatedLines: seq<string> := [
    "MATCH (user:User " + "{facebookID: {facebookID}})" + "-[:{relationshipType}]->(node)",
    "RETURN node"
  ]

  const IsLocalLines: seq<string> := [
    "MATCH (user:User " + "{facebookID: {facebookID}})" + "-[r:ISLOCAL]->" + "(place:Place {place_id: {place_id}})",
    "RETURN r"
  ]

  /** The data object itself is the parameter object. */
  function CreateUniqueUserQuery(data: JsObject): Query
  {
    Query(Join(CreateUniqueUserLines), data)
  }

  function FindQuery(data: JsObject): Query
  {
    Query(Join(FindLines), data)
  }

  function DeleteUserQuery(data: JsObject): Query
  {
    Query(Join(DeleteUserLines), data)
  }

  /** The lines of `addRelationship`, given the node label and identifying
      property from `chooseTypes` and the caller's relationship type, each
      already written as text. */
  function AddRelationshipLines(thingType: string, idType: string, relationshipType: string): seq<string>
  {
    [
      "MATCH (user:User " + "{facebookID: {user.facebookID}})",
      "MATCH (thing:" + thingType + " {" + idType + ": thing." + idType + "})",
      "MERGE (user)-[r:" + relationshipType + "]->(thing)",
      "RETURN user"
    ]
  }

  function AddRelationshipQuery(user: JsObject, thing: JsObject, relationshipType: JsValue): Query
  {
    var types := ChooseTypes(relationshipType);
    var lines := AddRelationshipLines(ToJsString(types.thingType), ToJsString(types.idType), ToJsString(relationshipType));
    Query(Join(lines), map["user" := Obj(user), "thing" := Obj(thing)])
  }

  /** The lines of `removeRelationship`: the label stays the placeholder
      `{thingType}` (followed by two spaces); the identifying property and
      the relationship type are spliced as in `addRelationship`. */
  function RemoveRelationshipLines(idType: string, relationshipType: string): seq<string>
  {
    [
      "MATCH (user:User " + "{facebookID: {user.facebookID}})",
      "MATCH (thing:{thingType}  {" + idType + ": thing." + idType + "})",
      "MATCH (user)-[r:" + relationshipType + "]->(thing)",
      "DELETE r",
      "RETURN user"
    ]
  }

  /** The label is bound as the parameter `thingType` instead. */
  function RemoveRelationshipQuery(user: JsObject, thing: JsObject, relationshipType: JsValue): Query
  {
    var types := ChooseTypes(relationshipType);
    var lines := RemoveRelationshipLines(ToJsString(types.idType), ToJsString(relationshipType));
    Query(Join(lines), map["user" := Obj(user), "thing" := Obj(thing), "thingType" := types.thingType])
  }

  /** The relationship type is a parameter here, not spliced. */
  function FindRelatedQuery(facebookID: JsValue, relationshipType: JsValue): Query
  {
    Query(Join(FindRelatedLines), map["facebookID" := facebookID, "relationshipType" := relationshipType])
  }

  function IsLocalQuery(facebookID: JsValue, placeId: JsValue): Query
  {
    Query(Join(IsLocalLines), map["facebookID" := facebookID, "place_id" := placeId])
  }

  /** The fixed templates: each text consists of exactly its template
      lines, whatever the parameters. */
  lemma CreateUniqueUserText(data: JsObject)
    ensures Split(CreateUniqueUserQuery(data).text) == CreateUniqueUserLines
  {
    assert OneLineEach(CreateUniqueUserLines);
    SplitJoin(CreateUniqueUserLines);
  }

  lemma FindText(data: JsObject)
    ensures Split(FindQuery(data).text) == FindLines
  {
    assert OneLineEach(FindLines);
    SplitJoin(FindLines);
  }

  lemma DeleteUserText(data: JsObject)
    ensures Split(DeleteUserQuery(data).text) == DeleteUserLines
  {
    assert OneLineEach(DeleteUserLines);
    SplitJoin(DeleteUserLines);
  }

  lemma FindRelatedText(facebookID: JsValue, relationshipType: JsValue)
    ensures Split(FindRelatedQuery(facebookID, relationshipType).text) == FindRelatedLines
  {
    assert OneLineEach(FindRelatedLines);
    SplitJoin(FindRelatedLines);
  }

  lemma IsLocalText(facebookID: JsValue, placeId: JsValue)
    ensures Split(IsLocalQuery(facebookID, placeId).text) == IsLocalLines
  {
    assert OneLineEach(IsLocalLines);
    SplitJoin(IsLocalLines);
  }

  /** The `addRelationship` text is the four template lines, with the
      label and identifying property from `chooseTypes` and the caller's
      relationship type spliced in, when that type holds no line break. */
  lemma AddRelationshipText(user: JsObject, thing: JsObject, relationshipType: JsValue)
    requires '\n' !in ToJsString(relationshipType)
    ensures var types := ChooseTypes(relationshipType);
      var idType := ToJsString(types.idType);
      Split(AddRelationshipQuery(user, thing, relationshipType).text) == [
        "MATCH (user:User " + "{facebookID: {user.facebookID}})",
        "MATCH (thing:" + ToJsString(types.thingType) + " {" + idType + ": thing." + idType + "})",
        "MERGE (user)-[r:" + ToJsString(relationshipType) + "]->(thing)",
        "RETURN user"
      ]
  {
    TypeNamesOneLine(relationshipType);
    var types := ChooseTypes(relationshipType);
    AddLinesOneLine(ToJsString(types.thingType), ToJsString(types.idType), ToJsString(relationshipType));
  }

  lemma AddLinesOneLine(thingType: string, idType: string, relationshipType: string)
    requires '\n' !in thingType && '\n' !in idType && '\n' !in relationshipType
    ensures Split(Join(AddRelationshipLines(thingType, idType, relationshipType))) ==
      AddRelationshipLines(thingType, idType, relationshipType)
  {
    var lines := AddRelationshipLines(thingType, idType, relationshipType);
    MatchUserOneLine();
    MatchThingOneLine();
    EdgePiecesOneLine();
    TailPiecesOneLine();
    assert OneLineEach(lines);
    SplitJoin(lines);
  }

  /** The relationship type is spliced in unescaped: every line break in it
      adds a line to the `addRelationship` text. */
  lemma AddRelationshipLineCount(user: JsObject, thing: JsObject, relationshipType: JsValue)
    ensures |Split(AddRelationshipQuery(user, thing, relationshipType).text)| ==
      4 + multiset(ToJsString(relationshipType))['\n']
  {
    var types := ChooseTypes(relationshipType);
    TypeNamesOneLine(relationshipType);
    AddLinesCount(ToJsString(types.thingType), ToJsString(types.idType), ToJsString(relationshipType));
  }

  /** The fixed pieces of the relationship templates hold no line break. */
  lemma MatchUserOneLine()
    ensures '\n' !in "MATCH (user:User " + "{facebookID: {user.facebookID}})"
  {
  }

  lemma MatchThingOneLine()
    ensures '\n' !in "MATCH (thing:" && '\n' !in " {" && '\n' !in ": thing." && '\n' !in "})"
  {
  }

  lemma EdgePiecesOneLine()
    ensures '\n' !in "MERGE (user)-[r:" && '\n' !in "MATCH (user)-[r:" && '\n' !in "]->(thing)"
  {
  }

  lemma TailPiecesOneLine()
    ensures '\n' !in "MATCH (thing:{thingType}  {" && '\n' !in "DELETE r" && '\n' !in "RETURN user"
  {
  }

  lemma AddLinesCount(thingType: string, idType: string, relationshipType: string)
    requires '\n' !in thingType && '\n' !in idType
    ensures |Split(Join(AddRelationshipLines(thingType, idType, relationshipType)))| ==
      4 + multiset(relationshipType)['\n']
  {
    var lines := AddRelationshipLines(thingType, idType, relationshipType);
    MatchUserOneLine();
    MatchThingOneLine();
    EdgePiecesOneLine();
    TailPiecesOneLine();
    assert '\n' !in lines[0] && '\n' !in lines[1] && '\n' !in lines[3];
    LineCountWithBreaksAt(lines, 2);
    NoBreakCount("MERGE (user)-[r:");
    NoBreakCount("]->(thing)");
  }

  /** The `removeRelationship` text is its five template lines: the label
      is left as the placeholder `{thingType}` and bound as a parameter,
      while the identifying property and the caller's relationship type are
      spliced in, when that type holds no line break. */
  lemma RemoveRelationshipText(user: JsObject, thing: JsObject, relationshipType: JsValue)
    requires '\n' !in ToJsString(relationshipType)
    ensures var types := ChooseTypes(relationshipType);
      var idType := ToJsString(types.idType);
      var q := RemoveRelationshipQuery(user, thing, relationshipType);
      && Split(q.text) == [
        "MATCH (user:User " + "{facebookID: {user.facebookID}})",
        "MATCH (thing:{thingType}  {" + idType + ": thing." + idType + "})",
        "MATCH (user)-[r:" + ToJsString(relationshipType) + "]->(thing)",
        "DELETE r",
        "RETURN user"
      ]
      && q.params == map["user" := Obj(user), "thing" := Obj(thing), "thingType" := types.thingType]
  {
    var types := ChooseTypes(relationshipType);
    TypeNamesOneLine(relationshipType);
    RemoveLinesOneLine(ToJsString(types.idType), ToJsString(relationshipType));
  }

  lemma RemoveLinesOneLine(idType: string, relationshipType: string)
    requires '\n' !in idType && '\n' !in relationshipType
    ensures Split(Join(RemoveRelationshipLines(idType, relationshipType))) == RemoveRelationshipLines(idType, relationshipType)
  {
    var lines := RemoveRelationshipLines(idType, relationshipType);
    MatchUserOneLine();
    MatchThingOneLine();
    EdgePiecesOneLine();
    TailPiecesOneLine();
    assert OneLineEach(lines);
    SplitJoin(lines);
  }

  /** Every line break in the relationship type adds a line to the
      `removeRelationship` text as well. */
  lemma RemoveRelationshipLineCount(user: JsObject, thing: JsObject, relationshipType: JsValue)
    ensures |Split(RemoveRelationshipQuery(user, thing, relationshipType).text)| ==
      5 + multiset(ToJsString(relationshipType))['\n']
  {
    TypeNamesOneLine(relationshipType);
    RemoveLinesCount(ToJsString(ChooseTypes(relationshipType).idType), ToJsString(relationshipType));
  }

  lemma RemoveLinesCount(idType: string, relationshipType: string)
    requires '\n' !in idType
    ensures |Split(Join(RemoveRelationshipLines(idType, relationshipType)))| ==
      5 + multiset(relationshipType)['\n']
  {
    var lines := RemoveRelationshipLines(idType, relationshipType);
    MatchUserOneLine();
    MatchThingOneLine();
    EdgePiecesOneLine();
    TailPiecesOneLine();
    assert '\n' !in lines[0] && '\n' !in lines[1] && '\n' !in lines[3] && '\n' !in lines[4];
    LineCountWithBreaksAt(lines, 2);
    NoBreakCount("MATCH (user)-[r:");
    NoBreakCount("]->(thing)");
  }
}
