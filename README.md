# Generic DynamoDB CRUD service: a Dafny model

This project models a small Express service that exposes one DynamoDB table
under a versioned REST interface. The model covers four parts.

- **The CRUD handler** (`Crud`).
  - It builds the route table: the collection route `/{tableName}` takes GET (list) and POST (create).
  - The item route `/{tableName}/:{primaryKey}` takes PUT (update), GET (read) and DELETE.
  - Each operation's rules are modelled:
    - limit checks on listing;
    - the empty-key and already-exists checks on create;
    - on update: the missing-record and empty-payload checks, renaming the primary key, the rename-collision check, and the merge of the payload into the stored record;
    - optional removal of fields whose value is null.
- **The storage adapter** (`Storage`). It models get, put and delete over a table held in a field, and the do-while loop that lists items page by page up to a limit.
- **The route registry** (`Registry`).
  - The nested loops that add one validation gate and one wrapped route function per method of every route.
  - The gate validates only PUT and POST bodies. An invalid body gets a 400 that carries the validator's error list, and the route function is never run.
  - The wrapper turns a throw or rejection into an error with code 500.
- **The error handler** (`Server`). It reads the status from `code`, then `statusCode`, then 500. A status outside 100..530 becomes 500. The body is `{error: message}`. When there is no error, it calls `next(null)` and sends nothing.

`Json` holds the JSON values and the few JavaScript built-ins the core relies on:

- truthiness;
- object spread;
- `trim`.

`Http` holds replies and error objects. `Schemas` keeps the JSON-Schema validator abstract.

The stateful parts are classes:

- `Storage.DynamoDbService` holds the table in a field `items`.
- `Crud.CrudService` owns one adapter.
- `Registry.Router` holds the stack of layers.

Each method is proved equal to a specification function over the old state:

- `ListResult`
- `CreateResult`
- `ReadResult`
- `UpdateResult`
- `DeleteResult`
- `AllInfo`
- `Layers`
- `Serve`

The properties are proved about those functions. `CrudProperties` collects the properties that relate several operations: create then read, a duplicate create, update then read, rename, delete then read, and a test-suite session.

Modelling choices:

- **Put writes under the item's own key.** A put stores the item under its own primary-key attribute. That attribute is the `key` argument unless `info` overrides it, just as DynamoDB takes the key from `{[primaryKey]: key, ...info}`. When that attribute is not a string, the store rejects the write. The invariant `KeyedBy` states that every stored item carries its own key.
- **Scans are an abstract `Pager`.** The pager is a scan function from a start key and a `Limit` to `Items` and `LastEvaluatedKey`. It also carries a rank that must decrease along continuation tokens (`Progress`).
- **Page-size and origin facts are hypotheses.** The bound on the listing's length holds under `PageBound`: no page holds more than it asked for. The fact that every listed record is a stored one holds under `PagesOf`: every page is drawn from the table.
- **A throwing operation becomes `Fault`.** An operation that throws or whose store call rejects answers `Fault`; the wrapper turns that into a 500. Three cases do this:
  - a create body whose key field is missing or not a string, because `trim` throws;
  - a rename to a key that is not a string, because the store rejects it;
  - a put whose key attribute is not a string.

## Model

| member | source | states |
|---|---|---|
| Json.Overlay | src/handlers/dynamoCRUDService.js:176-179 | the merged record has the fields of both; the payload's fields win and the stored record's other fields are kept |
| Json.WithoutNulls | src/handlers/dynamoCRUDService.js:109-115 | the null-valued fields, and only they, are dropped; every other field keeps its value |
| Json.TrimEmptyIff | src/handlers/dynamoCRUDService.js:95 | a key trims to the empty string exactly when every character is JavaScript white space |
| Json.ToLower | src/handlers/dynamoCRUDService.js:166 | each ASCII upper-case letter becomes its lower-case letter and every other character is kept |
| Schemas.MissingFields | src/handlers/index.js:12-16 | the reported missing fields are exactly the required fields absent from the body |
| Schemas.Validate | src/handlers/index.js:32-34 | a body lacking a required field is invalid; a body with all of them is judged by the schema's other rules alone |
| Storage.Lookup | src/lib/dynamodbService.js:34-43 | get finds an item exactly when the key is stored, and returns that item |
| Storage.ItemFor | src/lib/dynamodbService.js:54-57 | the put item has the payload's fields plus the key attribute; the payload's own key attribute wins over `key` |
| Storage.PutItem | src/lib/dynamodbService.js:50-60 | a put succeeds exactly when the item's key attribute is a string; it then overwrites that entry and keeps every other entry |
| Storage.PutKeepsKeys | src/lib/dynamodbService.js:50-60 | a put keeps every item stored under its own key attribute |
| Storage.PutAtKey | src/lib/dynamodbService.js:50-60 | when the payload names no other key, the put writes exactly under `key`, and a payload that carries the key is stored as it is |
| Storage.WalkChained | src/lib/dynamodbService.js:75-85 | the loop body runs at least once; the first scan starts at the table's start and every later scan starts at the previous page's `LastEvaluatedKey` |
| Storage.WalkStep | src/lib/dynamodbService.js:76-85 | one turn of the loop gathers the current page, followed by what the remaining scans gather, or nothing more once `limit` is reached or no continuation token came back |
| Storage.WalkRequests | src/lib/dynamodbService.js:76-79 | every scan asks for `limit` minus the number of items gathered before it |
| Storage.WalkContinues | src/lib/dynamodbService.js:85 | a scan is followed by another only when fewer than `limit` items are gathered and that scan returned a continuation token |
| Storage.WalkContinuesAt | src/lib/dynamodbService.js:85 | the loop condition held after each scan that is followed by another |
| Storage.WalkEnds | src/lib/dynamodbService.js:85 | the last scan leaves at least `limit` items gathered or returns no continuation token |
| Storage.WalkBound | src/lib/dynamodbService.js:67-88 | when pages keep to their requested size, the listing never exceeds `limit` |
| Storage.WalkFromTable | src/lib/dynamodbService.js:76-83 | over pages drawn from the table, every listed item is the item stored under its own key |
| Storage.WalkFromTableAt | src/lib/dynamodbService.js:76-83 | the item at any index of a listing over pages drawn from the table is the item stored under its own key |
| Storage.ListingFacts | src/lib/dynamodbService.js:67-88 | a listing makes at least one scan, the first for `limit` items from the table's start; its result starts with that first page and is bounded by `limit` when pages keep to their requested size |
| Storage.DynamoDbService.constructor | src/lib/dynamodbService.js:8-14 | the adapter starts over the given table with the configured key attribute and default limit |
| Storage.DynamoDbService.Get | src/lib/dynamodbService.js:34-43 | returns the stored item or nothing, and the item carries the looked-up key |
| Storage.DynamoDbService.Put | src/lib/dynamodbService.js:50-60 | the table becomes the put's result, or is left alone when the store rejects the put |
| Storage.DynamoDbService.Delete | src/lib/dynamodbService.js:20-27 | exactly the key's entry is removed; deleting an absent key changes nothing |
| Storage.DynamoDbService.PushAll | src/lib/dynamodbService.js:80-83 | the page's items are appended in order and counted |
| Storage.DynamoDbService.GetAllInfo | src/lib/dynamodbService.js:67-88 | the do-while loop returns exactly the listing for the given limit, or for the default limit when none is given |
| Crud.Routes | src/handlers/dynamoCRUDService.js:33-54 | two routes, with their paths and their methods in order; the item route keeps the schema's rules but requires no field |
| Crud.ItemRouteSkipsRequired | src/handlers/dynamoCRUDService.js:42-46 | the item route never refuses a partial payload for a missing field |
| Crud.CheckLimit | src/handlers/dynamoCRUDService.js:63-82 | an absent or empty limit is accepted as none; a present one is accepted as its parsed value; it is refused exactly when it is not an integer, is negative or is above the maximum, each with its own message and in that order |
| Crud.Records | src/handlers/dynamoCRUDService.js:84 | the response array holds the records in order |
| Crud.ListResult | src/handlers/dynamoCRUDService.js:62-85 | a refused limit gives a 400 without a scan; an accepted one gives 200 |
| Crud.ReadResult | src/handlers/dynamoCRUDService.js:125-136 | 200 with the stored record exactly when the key is stored, else 404 with the not-found message |
| Crud.CreateResult | src/handlers/dynamoCRUDService.js:93-118 | a throw exactly when the key field is missing or not a string; 400 for a blank key or a stored key; otherwise 200 and the cleaned body stored under its key; every failure leaves the table alone |
| Crud.CreateWrites | src/handlers/dynamoCRUDService.js:116 | create's put stores the cleaned body under the body's key and keeps the table keyed |
| Crud.UpdateResult | src/handlers/dynamoCRUDService.js:144-189 | 400 for a missing record or an empty payload, each with its message; a throw exactly when a rename names a non-string key or the merged key attribute is not a string; every failure leaves the table alone; success names the target key |
| Crud.DeleteResult | src/handlers/dynamoCRUDService.js:196-202 | always 200 with the removed message; the key is gone and every other entry is unchanged |
| Crud.RemoveNulls | src/handlers/dynamoCRUDService.js:180-186 | the `forEach` loop deletes exactly the null-valued fields |
| Crud.CrudService.constructor | src/handlers/dynamoCRUDService.js:18-21 | the handler starts with a fresh adapter over the given table |
| Crud.CrudService.GetAllInfo | src/handlers/dynamoCRUDService.js:62-85 | replies as the list specification does |
| Crud.CrudService.CreateInfo | src/handlers/dynamoCRUDService.js:93-118 | its reply and the new table are those of the create specification |
| Crud.CrudService.GetInfo | src/handlers/dynamoCRUDService.js:125-136 | replies as the read specification does |
| Crud.CrudService.UpdateInfo | src/handlers/dynamoCRUDService.js:144-189 | its reply and the new table are those of the update specification, including the delete of the old key on a rename |
| Crud.CrudService.DeleteInfo | src/handlers/dynamoCRUDService.js:196-202 | its reply and the new table are those of the delete specification |
| CrudProperties.ListRefusalScansNothing | src/handlers/dynamoCRUDService.js:64-82 | a refused limit is answered with 400 whatever the table's pages are |
| CrudProperties.ListDefaultLimit | src/handlers/dynamoCRUDService.js:83 | with no limit the listing scans up to the configured default |
| CrudProperties.ListExplicitLimit | src/handlers/dynamoCRUDService.js:65-84 | a valid explicit limit within the maximum lists exactly the records gathered up to that limit, with 200 |
| CrudProperties.ListBound | src/handlers/dynamoCRUDService.js:76-84 | a successful listing holds at most the accepted limit, which is at most the maximum, or at most the default |
| CrudProperties.ListFromTable | src/handlers/dynamoCRUDService.js:83-84 | a successful listing returns stored records only |
| CrudProperties.CreateThenRead | src/handlers/dynamoCRUDService.js:116-131 | after a successful create, reading the key returns the cleaned body |
| CrudProperties.CreateTwiceConflicts | src/handlers/dynamoCRUDService.js:101-108 | a second create with the same key is refused with the exists message and leaves the table alone |
| CrudProperties.CreateBlankKeyRefused | src/handlers/dynamoCRUDService.js:95-100 | a key of white space only is refused with the empty-key message and stores nothing |
| CrudProperties.MergedFields | src/handlers/dynamoCRUDService.js:176-186 | an updated record: payload fields win, unmentioned fields are kept, null fields are dropped under null removal, and the key field holds the target key |
| CrudProperties.UpdateWrites | src/handlers/dynamoCRUDService.js:161-189 | success names the target key; a rename removes the old key and targets a new one; the merged record is stored under the target and every other key is untouched |
| CrudProperties.UpdateThenRead | src/handlers/dynamoCRUDService.js:144-189 | after an update, the target key reads back the merged record, and after a rename the old key reads 404 |
| CrudProperties.RenameCollisionRefused | src/handlers/dynamoCRUDService.js:161-169 | a rename onto a stored key is refused with 400 before anything is deleted |
| CrudProperties.DeleteThenRead | src/handlers/dynamoCRUDService.js:196-202 | delete succeeds whether or not the key is stored, a later read is 404, and a second delete changes nothing |
| CrudProperties.SessionCreate | test/dynamoCRUDService.js:385-395 | the session's create stores the body as sent |
| CrudProperties.SessionUpdate | test/dynamoCRUDService.js:396-406 | the session's update adds `firstName` to the stored record |
| CrudProperties.Session | test/dynamoCRUDService.js:384-430 | create, update, read both fields back, delete, then read 404 |
| Registry.Router.constructor | src/handlers/index.js:5 | the router starts empty |
| Registry.Router.Add | src/handlers/index.js:33 | registering a function appends exactly one layer |
| Registry.Register | src/handlers/index.js:22-64 | the loop over handlers adds exactly the layers of every handler, in order |
| Registry.RegisterRoutes | src/handlers/index.js:23-63 | the loop over a handler's routes adds exactly their layers at the paths `/{version}{route}`, in order |
| Registry.RegisterMethods | src/handlers/index.js:27-62 | the loop over a route's methods adds, per method, its gate when the route has a schema and then its route function, in order |
| Registry.MethodsShape | src/handlers/index.js:29-61 | with a schema, method `i` puts its gate at `2i` and its route function at `2i + 1`; without a schema, its route function at `i` |
| Registry.MethodsMember | src/handlers/index.js:27-62 | a layer belongs to a route exactly when one of that route's methods adds it |
| Registry.RoutesMember | src/handlers/index.js:23-63 | a layer belongs to a handler exactly when one of its routes' methods adds it at that route's path |
| Registry.LayersMember | src/handlers/index.js:22-64 | every layer comes from a method of some route, and every method's layers are registered |
| Registry.EndpointRegistered | src/handlers/index.js:26-61 | a route function is registered for a method and path exactly when some route declares that method at `/{version}{route}` |
| Registry.GateRegistered | src/handlers/index.js:31-43 | a gate is registered for a method and path exactly when a route with that schema declares the method there |
| Registry.MethodsSnoc | src/handlers/index.js:27-62 | one more method adds its layers at the end |
| Registry.RoutesSnoc | src/handlers/index.js:23-63 | one more route adds its layers at the end |
| Registry.CollectionLayers | src/handlers/index.js:27-62 | the collection route adds, in order, the gate and route function of GET (list) and of POST (create) |
| Registry.ItemLayers | src/handlers/index.js:27-62 | the item route adds, in order, the gate and route function of PUT (update), GET (read) and DELETE |
| Registry.CrudTable | src/handlers/index.js:19-64 | the service's router holds exactly ten layers, each of the five methods behind its own gate, collection route first |
| Registry.GateCheck | src/handlers/index.js:33-42 | bodies of methods other than PUT and POST pass unvalidated; a PUT or POST body is refused exactly when it is invalid, with the error list and code 400, and an accepted one continues as the validator rewrote it |
| Registry.Wrap | src/handlers/index.js:44-59 | a throw becomes an error with code 500 and the wrapper's message; every other outcome is kept; nothing escapes |
| Registry.Serve | src/handlers/index.js:33-61 | a request through gate and wrapper never throws; any error it passes on has code 400 or 500 |
| Registry.RejectedBeforeOperation | src/handlers/index.js:34-38 | an invalid PUT or POST body gives 400 with the error list whatever the operation, and the table is unchanged |
| Registry.GateIgnoresReads | src/handlers/index.js:34-40 | for GET and DELETE the gate makes no difference |
| Registry.ValidatedBodyReachesOperation | src/handlers/index.js:33-42 | an accepted PUT or POST body reaches the wrapped route function as the validator rewrote it |
| Registry.FaultBecomes500 | src/handlers/index.js:44-59 | the wrapper's 500 arises exactly from operations that throw, and keeps the table the operation left |
| Registry.Handle | src/handlers/index.js:33-61 | gate, bound route function and wrapper together behave as `Serve` on the service's state |
| Server.ErrorCode | src/server.js:38 | the status is the first non-zero code among `code` and `statusCode`, else 500 |
| Server.ErrorHandler | src/server.js:31-48 | with no error nothing is sent; otherwise the status lies in 100..530 and the body is `{error: message}`; an in-range code and a non-empty message are kept, and an out-of-range code gives 500 with the default message |
| Server.Finish | src/server.js:31-48 | a sent response reaches the client as sent; an error passed on reaches it as the error handler answers it |
| Server.OpReplies | src/handlers/dynamoCRUDService.js:62-202 | a route function answers 200, or 404 for a missing record, or a 400 error with a non-empty message, or throws; only a 200 changes the table |
| Server.WrappedResponses | src/handlers/index.js:44-59 | a wrapped route function reaches the client as 200, 404 for a missing record on read, 400 with the operation's message or 500 with the wrapper's message; only a 200 changes the table |
| Server.CrudResponses | src/server.js:38-44 | every response is 200, 404, 400 or 500; a 400 carries its error's message, a 500 the wrapper's message; only a 200 changes the table |
| Server.ValidationResponse | src/server.js:38-44 | an invalid PUT or POST body reaches the client as 400 `{error: [errors]}` |

## Left out

- The AWS SDK, the network and the DynamoDB service are not modelled. The table is a map in the adapter object, and a scan is the abstract `Pager`.
- The pages are not derived from the table. `PagesOf` and `PageBound` are hypotheses on the pager, and so is `Progress`, which stands for the table being finite.
- DynamoDB's own request validation is not modelled: a `Limit` of 0, an empty-string key attribute and the item size limit. The model stores what it is given, so a `limit=0` listing scans for zero items instead of failing. Only a non-string key attribute is rejected.
- CrudProperties.UpdateWrites is stated only for update payloads whose key field is absent, equal to the path key, a non-empty string, or null under null removal. With another falsy key field (such as `""`), the merged item carries that value and the store decides where it goes. Only `UpdateResult` describes that case.
- CrudProperties.UpdateThenRead is under the same condition as `UpdateWrites`.
- Schemas.Validate keeps the JSON-Schema rules abstract. This covers types, `transform`, the removal of undeclared properties and their error objects. Only the required-field check and the `allErrors` collection are explicit.
- Express's path matching (turning a URL into a route and its `:primaryKey` parameter), `HEAD` on GET routes, CORS and body parsing are not modelled. A request arrives with its method, key, limit and body already extracted.
- `Number.parseInt` is the parameter `IntParser`. Numbers are integers, so floating point, `NaN` and `Infinity` are not modelled.
- `toLowerCase` is modelled for ASCII letters only.
- `console.log` and `console.error` calls are left out, and so is the server's `start` and `stop` (`listen` on a port).
- The asynchronous ordering of requests and concurrent requests are not modelled. Every operation runs to completion before the next.
- `crudApp.js`, `lambda.js` and `src/handlers/handler.js` are not part of this model.
