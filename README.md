# yokel user model in Dafny

This project models `server/api/users/userModel.js`, the data-access layer of
the yokel application over a Neo4j graph store. It covers:

- the relationship-type registry `chooseTypes`;
- the Cypher text and parameters every `User.*` operation builds;
- the validation guards and the way each operation turns the store's reply
  into the settlement of the promise it returns.

The store is not modelled. Each operation takes the reply the store gives to
its query as an input (`StoreReply`: an error, or a list of rows). It returns
two things: the query it issued, and the final state of its promise.

Modules, one file each:

- `JsValues` (`js_values.dfy`): the JavaScript values callers pass in, and
  truthiness (`if (!x)`). Also property access, and the string conversion
  done by `'text' + v` and by `o[v]`. Numbers are the safe integers, from
  -(2^53) to 2^53, whose string form is their plain decimal numeral.
- `Lines` (`lines.dfy`): `lines.join('\n')`, with a `Split` that gives the
  lines back. Every statement about which lines a query text holds is made
  through `Split`.
- `Promises` (`promises.dfy`): the settle-once rule. `Promise` is a class
  whose `state` the `resolve`/`reject` calls update. A ghost record of the
  calls made, with the invariant `state == AfterAll(Pending, calls)`, ties
  that state to the pure function `AfterAll`.
- `Lodash` (`lodash.dfy`): `_.map`, and the fact that mapping with the
  identity copies the array.
- `RelationshipTypes` (`relationship_types.dfy`): `chooseTypes`, written as
  in the source as an if-chain of strict comparisons, and proved equal to a
  reference table `Registry`.
- `Queries` (`queries.dfy`): the query text and parameters of each
  operation. For the relationship operations there are exact line-by-line
  statements and line counts.
- `UserModel` (`user_model.dfy`): the seven operations. Each is a method
  that follows the source's steps:
  - allocate a promise;
  - run the guard, which rejects but does not return;
  - build and issue the query;
  - run the callback.

  The `User` wrapper (`new User(node)`) is the datatype `User(node)`.

Points where the code does less than its comments or its shape suggests:

- The comment at userModel.js:27 says `data` must include `facebookID`,
  `facebookToken`, `name` and `email`. The guard at :30-32 tests only
  `facebookID` and `name`, and its message quotes the two values it checked
  rather than naming the missing fields.
- The comment at userModel.js:52 says `find` requires `facebookID`. There is
  no guard in `find` (:54-75).
- The guards at userModel.js:30-32, :80-82, :128-130 and :163-165 call
  `reject` and fall through, so the query is issued anyway. The promise
  still ends rejected with the validation message, because it settles only
  once. Every method's `issued` result therefore holds unconditionally.
- `chooseTypes` (userModel.js:104-118) leaves both components `undefined`
  for a tag other than the three it names. The relationship operations go
  on with that:
  - the guard then reads the thing's property named `"undefined"`;
  - the text `undefined` is spliced into the query;
  - `removeRelationship` binds `thingType` to `undefined`.

  See `UserModel.UnknownRelationshipType`.
- The relationship callbacks (userModel.js:145-149, :181-185) reject with
  "at least one side of the relationship does not exist" whenever the
  reply is empty or its first row has no truthy `user`. An edge that did
  not exist between existing endpoints is reported the same way when the
  store returns no row for it.

## Model

| member | source | states |
|---|---|---|
| `RelationshipTypes.ChooseTypes` | server/api/users/userModel.js:104-118 | A tag in the table (FOLLOWS, WRITES, ISLOCAL) yields its (label, identifying property) pair as two strings. Any other value, including non-strings, yields a pair whose two components are both `undefined`. |
| `RelationshipTypes.KnownTags` | server/api/users/userModel.js:107-116 | The registry knows exactly the three tags FOLLOWS, WRITES and ISLOCAL. |
| `JsValues.DigitsRoundTrip` | server/api/users/userModel.js:31 | For a non-negative safe integer, the decimal text a numeric `facebookID` becomes when concatenated into a message reads back as the same number. |
| `Lines.SplitJoin` | server/api/users/userModel.js:34-38 | Joining lines that hold no line break with `'\n'` and splitting the result at line breaks gives back exactly those lines. |
| `Lines.JoinLineCount` | server/api/users/userModel.js:132-137 | A joined text has one line per joined line, plus one per line break inside the lines themselves. |
| `Queries.CreateUniqueUserText` | server/api/users/userModel.js:34-40 | The `createUniqueUser` text is exactly its three MERGE/SET/RETURN lines, whatever the data. |
| `Queries.FindText` | server/api/users/userModel.js:56-61 | The `find` text is exactly its MATCH/RETURN lines. |
| `Queries.DeleteUserText` | server/api/users/userModel.js:84-89 | The `deleteUser` text is exactly its MATCH/DELETE lines. |
| `Queries.FindRelatedText` | server/api/users/userModel.js:194-202 | The `findRelated` text is its two fixed lines; the relationship type is a parameter, not spliced. |
| `Queries.IsLocalText` | server/api/users/userModel.js:222-230 | The `isLocal` text is its two fixed lines, with `facebookID` and `place_id` as parameters. |
| `Queries.AddRelationshipText` | server/api/users/userModel.js:132-137 | When the relationship type holds no line break, the `addRelationship` text is exactly four lines. The second splices in the label and identifying property from `chooseTypes`; the third splices in the caller's relationship type verbatim. |
| `Queries.AddRelationshipLineCount` | server/api/users/userModel.js:132-137 | The relationship type is spliced in unescaped: the `addRelationship` text has 4 lines plus one per line break in that type. |
| `Queries.RemoveRelationshipText` | server/api/users/userModel.js:167-175 | When the relationship type holds no line break, the `removeRelationship` text is exactly five lines. The label stays the literal `{thingType}` placeholder; the identifying property and the relationship type are spliced in. The parameters are `user`, `thing`, and `thingType` bound to the label from `chooseTypes`. |
| `Queries.RemoveRelationshipLineCount` | server/api/users/userModel.js:167-173 | The `removeRelationship` text has 5 lines plus one per line break in the relationship type. |
| `Promises.SettledIsFinal` | server/api/users/userModel.js:30-48 | Once a promise has settled, every later `resolve` or `reject` call leaves its state unchanged. |
| `Promises.FirstSettlementWins` | server/api/users/userModel.js:29-49 | A promise ends in the state named by the first call that settles it, whatever calls follow. |
| `Promises.AfterAllSnoc` | server/api/users/userModel.js:29-49 | One more call acts on the state that the earlier calls left. |
| `Promises.Promise.constructor` | server/api/users/userModel.js:29 | A new promise is pending and has received no calls. |
| `Promises.Promise.Resolve` | server/api/users/userModel.js:46 | `resolve(v)` records the call and fulfils the promise with `v` only if it was pending. The state stays the result of all calls so far. |
| `Promises.Promise.Reject` | server/api/users/userModel.js:31 | `reject(r)` records the call and rejects the promise with `r` only if it was pending. The state stays the result of all calls so far. |
| `Lodash.Map` | server/api/users/userModel.js:208-210 | `_.map` gives an array of the same length whose every element is the function applied to the element at the same index. |
| `Lodash.MapIdentity` | server/api/users/userModel.js:236-238 | Mapping with a function that returns its argument gives back the same array: same length, same elements, same order. |
| `UserModel.CreateUniqueUser` | server/api/users/userModel.js:28-50 | The MERGE query is always issued with `data` as parameters. A falsy `facebookID` or `name` ends rejected with "Requires facebook ID and name parameters <facebookID> <name>", whatever the store replies. Otherwise a store error is rejected verbatim, and rows resolve to a `User` wrapping the first row's `user`. |
| `UserModel.Find` | server/api/users/userModel.js:54-75 | A store error is rejected verbatim. A first row whose `user` is truthy resolves to a `User` wrapping that node. An empty reply, or a first row without `user`, is rejected with the Error "user does not exist". |
| `UserModel.DeleteUser` | server/api/users/userModel.js:78-99 | A falsy `facebookID` ends rejected with "Requires facebook ID parameter", whatever the store replies. Otherwise a store error is rejected verbatim, and any row list, empty or not, resolves to "User deleted!". |
| `UserModel.SettleRelationship` | server/api/users/userModel.js:141-151 | The shared callback asks the promise to reject with the store error, or to resolve with the first row's `user`, or to reject with the Error "at least one side of the relationship does not exist". The promise applies the request only if still pending. |
| `UserModel.AddRelationship` | server/api/users/userModel.js:121-153 | The query is always issued. If `user.facebookID` or `thing[idType]` is falsy, the outcome is a rejection with "Requires facebook ID parameter and <idType> parameter", whatever the store replies. Otherwise: a store error is rejected verbatim; a first row with `user` resolves to a `User`; any other reply is rejected with "at least one side of the relationship does not exist". |
| `UserModel.RemoveRelationship` | server/api/users/userModel.js:156-189 | Same guard, message and reply handling as `addRelationship`, with the `removeRelationship` query always issued. |
| `UserModel.FindRelated` | server/api/users/userModel.js:191-215 | Never rejects on a successful reply: it resolves with a list equal to the store's rows, in the same order. A store error is rejected verbatim. |
| `UserModel.IsLocal` | server/api/users/userModel.js:219-243 | Never rejects on a successful reply: it resolves with the store's rows unchanged. A store error is rejected verbatim. |
| `UserModel.UnknownRelationshipType` | server/api/users/userModel.js:121-137 | For an unknown type, the guard passes exactly when the user has a Facebook ID and the thing has a truthy property named "undefined". The failure message names "undefined". `undefined` is spliced as label and identifying property, and `removeRelationship` binds `thingType` to `undefined`. |

## Left out

- The Neo4j connection and every `db.query` call (userModel.js:5-9): this is network I/O to an external service. The reply to the query is an input of each operation instead.
- What MATCH, MERGE and DELETE do in the store: whether a second create merges, whether an edge exists, which rows come back. Which rows the store returns is not modelled, so nothing spanning several operations (create twice, add then find, add then remove) is stated.
- Asynchronous scheduling and callback timing: only the settle-once rule of a promise is kept.
- Bluebird's adoption of thenables passed to `resolve`: no value resolved here is a thenable.
- UserModel.CreateUniqueUser: requires a non-empty row list on a successful reply. On an empty one, the source's `results[0].user` throws inside the store callback, outside the promise, and uncaught exceptions are not modelled.
- A reply is either a truthy error (`StoreError`) or rows. A falsy `err` sends the callback's `if(err)` down its success branch, so such a reply is written as `Rows(...)`; a falsy `err` with no rows at all is not modelled.
- JavaScript numbers are modelled as the safe integers only (-(2^53) to 2^53): no fractions, NaN, infinities or negative zero, and no larger integers, which JavaScript rounds and from 10^21 on prints in exponent form (`1e+21`). Arrays are not modelled as `JsValue`s. Property access on a non-object `data`, `user` or `thing`, which throws a TypeError, is not modelled: those arguments are always objects.
- yokel_app/www/app/business/business.controller.js: a UI controller that only sets a scope field and navigates, with no logic to model.
