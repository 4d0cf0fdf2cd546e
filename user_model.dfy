/** The user repository: each operation validates its input, builds a query,
    hands it to the graph store and turns the store's reply into the
    settlement of the promise it returns.

    The store is not modelled: each operation takes the reply the store gives
    to the query as an input, and returns the query it issued together with
    the final state of its promise. As in the source, a failed validation
    rejects the promise but does not stop the operation, so the query is
    issued anyway and the reply is still handled; being settled already, the
    promise ignores that later handling. */
module UserModel {
  import opened JsValues
  import opened Promises
  import opened Lodash
  import opened RelationshipTypes
  import opened Queries
  import opened Lines

  /** The wrapper an operation resolves with: it only holds the store node. */
  datatype User = User(node: JsValue)

  /** A result row: one field per name in the query's RETURN clause. */
  type Row = JsObject

  /** An error value the callback's `if (err)` takes as an error: a truthy one.
      A falsy `err` sends the callback down its success branch, so a reply
      carrying one is written `Rows(...)`. */
  type StoreError = err: JsValue | Truthy(err) witness ErrorObj("")

  /** What the store passes to the query callback: an error, or the rows. */
  datatype StoreReply = Failure(err: StoreError) | Rows(rows: seq<Row>)

  /** What an operation's promise can be fulfilled with. */
  datatype Value = UserValue(user: User) | Text(text: string) | RowList(rows: seq<Row>)

  const UserDeleted := "User deleted!"
  const UserDoesNotExist := "user does not exist"
  const EndpointMissing := "at least one side of the relationship does not exist"
  const MissingFacebookId := "Requires facebook ID parameter"

  /** The rejection text of `createUniqueUser`: it quotes the two values,
      not the names of the missing fields. */
  function MissingUserFieldsMessage(data: JsObject): string
  {
    "Requires facebook ID and name parameters " + ToJsString(Get(data, "facebookID")) + " " + ToJsString(Get(data, "name"))
  }

  /** The rejection text of the relationship operations: it names the
      identifying property that `chooseTypes` resolved. */
  function MissingIdsMessage(idType: JsValue): string
  {
    "Requires facebook ID parameter and " + ToJsString(idType) + " parameter"
  }

  /** The guard of `createUniqueUser` passes. */
  predicate HasUserFields(data: JsObject)
  {
    Truthy(Get(data, "facebookID")) && Truthy(Get(data, "name"))
  }

  /** The guard of the relationship operations passes: the user has a
      Facebook ID and the thing has the identifying property. */
  predicate HasEndpointIds(user: JsObject, thing: JsObject, relationshipType: JsValue)
  {
    Truthy(Get(user, "facebookID")) && Truthy(Get(thing, ToJsString(ChooseTypes(relationshipType).idType)))
  }

  /** `results && results[0] && results[0].user`. */
  predicate FirstRowHasUser(rows: seq<Row>)
  {
    |rows| > 0 && Truthy(Get(rows[0], "user"))
  }

  /** `createUniqueUser(data)`. The source reads `results[0].user` without
      checking that a row came back, so a successful reply is required to
      hold at least one row. */
  method CreateUniqueUser(data: JsObject, reply: StoreReply) returns (issued: Query, outcome: Settlement<Value>)
    requires reply.Rows? ==> |reply.rows| > 0
    ensures issued == CreateUniqueUserQuery(data)
    ensures !HasUserFields(data) ==> outcome == Rejected(Str(MissingUserFieldsMessage(data)))
    ensures HasUserFields(data) && reply.Failure? ==> outcome == Rejected(reply.err)
    ensures HasUserFields(data) && reply.Rows? ==> outcome == Fulfilled(UserValue(User(Get(reply.rows[0], "user"))))
  {
    var promise := new Promise<Value>();
    if !Truthy(Get(data, "facebookID")) || !Truthy(Get(data, "name")) {
      promise.Reject(Str(MissingUserFieldsMessage(data)));
    }
    issued := CreateUniqueUserQuery(data);
    match reply {
      case Failure(err) =>
        promise.Reject(err);
      case Rows(results) =>
        promise.Resolve(UserValue(User(Get(results[0], "user"))));
    }
    outcome := promise.state;
  }

  /** `find(data)`: no validation; a store error, a user, or "does not exist". */
  method Find(data: JsObject, reply: StoreReply) returns (issued: Query, outcome: Settlement<Value>)
    ensures issued == FindQuery(data)
    ensures reply.Failure? ==> outcome == Rejected(reply.err)
    ensures reply.Rows? && FirstRowHasUser(reply.rows) ==> outcome == Fulfilled(UserValue(User(reply.rows[0]["user"])))
    ensures reply.Rows? && !FirstRowHasUser(reply.rows) ==> outcome == Rejected(ErrorObj(UserDoesNotExist))
  {
    var promise := new Promise<Value>();
    issued := FindQuery(data);
    match reply {
      case Failure(err) =>
        promise.Reject(err);
      case Rows(results) =>
        if |results| > 0 && Truthy(Get(results[0], "user")) {
          promise.Resolve(UserValue(User(Get(results[0], "user"))));
        } else {
          promise.Reject(ErrorObj(UserDoesNotExist));
        }
    }
    outcome := promise.state;
  }

  /** `deleteUser(data)`: confirms the deletion whatever rows come back. */
  method DeleteUser(data: JsObject, reply: StoreReply) returns (issued: Query, outcome: Settlement<Value>)
    ensures issued == DeleteUserQuery(data)
    ensures !Truthy(Get(data, "facebookID")) ==> outcome == Rejected(Str(MissingFacebookId))
    ensures Truthy(Get(data, "facebookID")) && reply.Failure? ==> outcome == Rejected(reply.err)
    ensures Truthy(Get(data, "facebookID")) && reply.Rows? ==> outcome == Fulfilled(Text(UserDeleted))
  {
    var promise := new Promise<Value>();
    if !Truthy(Get(data, "facebookID")) {
      promise.Reject(Str(MissingFacebookId));
    }
    issued := DeleteUserQuery(data);
    match reply {
      case Failure(err) =>
        promise.Reject(err);
      case Rows(_) =>
        promise.Resolve(Text(UserDeleted));
    }
    outcome := promise.state;
  }

  /** The callback shared by the two relationship operations. */
  method SettleRelationship(promise: Promise<Value>, reply: StoreReply)
    requires promise.Valid()
    modifies promise
    ensures promise.Valid()
    ensures reply.Failure? ==> promise.state == After(old(promise.state), Rejected(reply.err))
    ensures reply.Rows? && FirstRowHasUser(reply.rows) ==>
      promise.state == After(old(promise.state), Fulfilled(UserValue(User(reply.rows[0]["user"]))))
    ensures reply.Rows? && !FirstRowHasUser(reply.rows) ==>
      promise.state == After(old(promise.state), Rejected(ErrorObj(EndpointMissing)))
  {
    match reply {
      case Failure(err) =>
        promise.Reject(err);
      case Rows(results) =>
        if |results| > 0 && Truthy(Get(results[0], "user")) {
          promise.Resolve(UserValue(User(Get(results[0], "user"))));
        } else {
          promise.Reject(ErrorObj(EndpointMissing));
        }
    }
  }

  /** `addRelationship(user, thing, relationshipType)`. */
  method AddRelationship(user: JsObject, thing: JsObject, relationshipType: JsValue, reply: StoreReply)
    returns (issued: Query, outcome: Settlement<Value>)
    ensures issued == AddRelationshipQuery(user, thing, relationshipType)
    ensures !HasEndpointIds(user, thing, relationshipType) ==>
      outcome == Rejected(Str(MissingIdsMessage(ChooseTypes(relationshipType).idType)))
    ensures HasEndpointIds(user, thing, relationshipType) && reply.Failure? ==> outcome == Rejected(reply.err)
    ensures HasEndpointIds(user, thing, relationshipType) && reply.Rows? && FirstRowHasUser(reply.rows) ==>
      outcome == Fulfilled(UserValue(User(reply.rows[0]["user"])))
    ensures HasEndpointIds(user, thing, relationshipType) && reply.Rows? && !FirstRowHasUser(reply.rows) ==>
      outcome == Rejected(ErrorObj(EndpointMissing))
  {
    var types := ChooseTypes(relationshipType);
    var idType := types.idType;
    var promise := new Promise<Value>();
    if !Truthy(Get(user, "facebookID")) || !Truthy(Get(thing, ToJsString(idType))) {
      promise.Reject(Str(MissingIdsMessage(idType)));
    }
    issued := AddRelationshipQuery(user, thing, relationshipType);
    SettleRelationship(promise, reply);
    outcome := promise.state;
  }

  /** `removeRelationship(user, thing, relationshipType)`: validated and
      settled exactly as `addRelationship`; only the query differs. */
  method RemoveRelationship(user: JsObject, thing: JsObject, relationshipType: JsValue, reply: StoreReply)
    returns (issued: Query, outcome: Settlement<Value>)
    ensures issued == RemoveRelationshipQuery(user, thing, relationshipType)
    ensures !HasEndpointIds(user, thing, relationshipType) ==>
      outcome == Rejected(Str(MissingIdsMessage(ChooseTypes(relationshipType).idType)))
    ensures HasEndpointIds(user, thing, relationshipType) && reply.Failure? ==> outcome == Rejected(reply.err)
    ensures HasEndpointIds(user, thing, relationshipType) && reply.Rows? && FirstRowHasUser(reply.rows) ==>
      outcome == Fulfilled(UserValue(User(reply.rows[0]["user"])))
    ensures HasEndpointIds(user, thing, relationshipType) && reply.Rows? && !FirstRowHasUser(reply.rows) ==>
      outcome == Rejected(ErrorObj(EndpointMissing))
  {
    var types := ChooseTypes(relationshipType);
    var idType := types.idType;
    var promise := new Promise<Value>();
    if !Truthy(Get(user, "facebookID")) || !Truthy(Get(thing, ToJsString(idType))) {
      promise.Reject(Str(MissingIdsMessage(idType)));
    }
    issued := RemoveRelationshipQuery(user, thing, relationshipType);
    SettleRelationship(promise, reply);
    outcome := promise.state;
  }

  /** `findRelated(facebookID, relationshipType)`: the rows, copied. */
  method FindRelated(facebookID: JsValue, relationshipType: JsValue, reply: StoreReply)
    returns (issued: Query, outcome: Settlement<Value>)
    ensures issued == FindRelatedQuery(facebookID, relationshipType)
    ensures reply.Failure? ==> outcome == Rejected(reply.err)
    ensures reply.Rows? ==> outcome == Fulfilled(RowList(reply.rows))
  {
    var promise := new Promise<Value>();
    issued := FindRelatedQuery(facebookID, relationshipType);
    match reply {
      case Failure(err) =>
        promise.Reject(err);
      case Rows(results) =>
        var parsedResults := Map(results, (item: Row) => item);
        MapIdentity(results, (item: Row) => item);
        promise.Resolve(RowList(parsedResults));
    }
    outcome := promise.state;
  }

  /** `isLocal(facebookID, place_id)`: the matching ISLOCAL edges, copied. */
  method IsLocal(facebookID: JsValue, placeId: JsValue, reply: StoreReply)
    returns (issued: Query, outcome: Settlement<Value>)
    ensures issued == IsLocalQuery(facebookID, placeId)
    ensures reply.Failure? ==> outcome == Rejected(reply.err)
    ensures reply.Rows? ==> outcome == Fulfilled(RowList(reply.rows))
  {
    var promise := new Promise<Value>();
    issued := IsLocalQuery(facebookID, placeId);
    match reply {
      case Failure(err) =>
        promise.Reject(err);
      case Rows(results) =>
        var parsedResults := Map(results, (item: Row) => item);
        MapIdentity(results, (item: Row) => item);
        promise.Resolve(RowList(parsedResults));
    }
    outcome := promise.state;
  }

  /** An unknown relationship type is not refused. The guard of the
      relationship operations reads the thing's property named "undefined"
      and, when it fails, names "undefined" in its message; the text
      "undefined" is spliced into the query as label and identifying
      property, and `removeRelationship` binds `thingType` to `undefined`. */
  lemma UnknownRelationshipType(user: JsObject, thing: JsObject, relationshipType: JsValue)
    requires !Known(relationshipType)
    ensures HasEndpointIds(user, thing, relationshipType) <==>
      Truthy(Get(user, "facebookID")) && Truthy(Get(thing, "undefined"))
    ensures MissingIdsMessage(ChooseTypes(relationshipType).idType) ==
      "Requires facebook ID parameter and " + "undefined parameter"
    ensures AddRelationshipQuery(user, thing, relationshipType).text ==
      Join(AddRelationshipLines("undefined", "undefined", ToJsString(relationshipType)))
    ensures RemoveRelationshipQuery(user, thing, relationshipType).params["thingType"] == Undefined
  {
  }
}
