# Product API over Airtable, modelled in Dafny

The system is a small REST API for "product" records kept in an Airtable
table. A request under `/products` is routed to one of five handlers. POST,
PUT and PATCH bodies are first checked against a Zod schema. The handler calls
the product service, the service calls the repository, and the repository makes
one round trip to the table. Handlers turn a success into a status and a JSON
body. They forward any failure to the error middleware, which answers 404 for
"Product not found" and 500 for everything else.

The model has one module per source file:

- `Values` (values.dfy): JSON values, JavaScript errors, and promise outcomes.
- `Schemas` (schemas.dfy): `createProductSchema` and `updateProductSchema` as a
  static table of field rules. `Validate` lists the issues Zod reports against
  a body. Declarative predicates (`CreateBodyOk`, `UpdateBodyOk`) state what
  each schema accepts.
- `Airtable` (airtable.dfy): the external table, which the system only calls.
  It is a class holding `map<string, Fields>` plus a ghost log of every round
  trip. Each store call takes a `fault` argument standing for a transport
  failure (network, credentials, rate limit).
- `Repository`, `Service`, `Controller`, `ErrorHandler`, `Routes`: one module
  per source file.
- `Pipeline` (pipeline.dfy): the composition in `app.ts`. It runs the route
  lookup, then the route's schema, then the handler, then the error handler.
  It also holds end-to-end scenarios.

The table's behaviour is stated as assumptions in `Airtable.Table`:

- `find`, `update` and `destroy` throw on an unknown id.
- `update` merges the supplied fields into the stored ones.
- `destroy` removes the key and replies with the record as it was.
- `create` picks a new non-empty id.
- `select(...).all()` returns every record exactly once.

The ghost call log lets the model state that a write was never attempted. It
also states that a write was attempted exactly once.

Three behaviours of the code are worth stating, since a reader might expect
otherwise:

- The repository's `findById` returns null for any error the store throws,
  not only for an unknown id (product.repository.ts:21). So a network failure
  during a lookup becomes "Product not found" and a 404.
- The error handler (errorHandler.ts:5-8) has no branch for validation
  failures, so it never answers 400. The `validate` middleware that answers
  for a rejected body is not part of this model. The model therefore stops at
  `Invalid(issues)` and proves that no handler and no store call runs.
- Listings are sorted by name only because the code asks the store for that
  order (product.repository.ts:14). Ordering belongs to the store and is not
  modelled.

## Model

| member | source | states |
|---|---|---|
| `Schemas.CreateSchemaMeaning` | src/modules/products/product.schemas.ts:3-10 | create accepts a body iff it is an object with a string `name` of length at least 3, a number `price` > 0, an optional string `description` and an optional integer `stock` > 0 |
| `Schemas.UpdateSchemaMeaning` | src/modules/products/product.schemas.ts:12-19 | update accepts a body iff it is an object and every present field meets the same per-field rule |
| `Schemas.Validate` | src/modules/products/product.schemas.ts:3-19 | the body's issue list is empty iff the body is an object and every field of the schema holds; a non-object body gives one issue on `body`; an object draws at most two issues per field |
| `Schemas.SchemaIssues` | src/modules/products/product.schemas.ts:4-9 | the issues of every field in declaration order; at most two per field (recursive contract) |
| `Schemas.FieldIssues` | src/modules/products/product.schemas.ts:5-8 | a field draws no issue iff it is absent-and-optional or present and meets its rule; a missing required field draws exactly its `required_error`; every issue carries the field's name |
| `Schemas.SchemaIssuesEmpty` | src/modules/products/product.schemas.ts:4-9 | a schema's issue list is empty iff every field is either absent-and-optional or present and meets its rule (induction over the field list) |
| `Schemas.RuleIssues` | src/modules/products/product.schemas.ts:5-8 | a present value draws no issue iff it meets its rule (string length, number, integer, positive); at most two issues; every issue carries the field's name |
| `Schemas.SchemaIssuesNameFields` | src/modules/products/product.schemas.ts:4-9 | every reported issue names a field of the schema |
| `Schemas.CreateImpliesUpdate` | src/modules/products/product.schemas.ts:5-8 | every body create accepts, update accepts too |
| `Schemas.UpdateAcceptsEmptyObject` | src/modules/products/product.schemas.ts:13-18 | update accepts `{}`; create refuses it |
| `Schemas.SameRulesWhenPresent` | src/modules/products/product.schemas.ts:5-8 | the schemas list the same fields in the same order; a present field draws the same issues under both; an absent field draws none under update |
| `Schemas.MissingRequiredReported` | src/modules/products/product.schemas.ts:5-6 | a body without `name` (or `price`) is refused by create with the issue 'Name is required' (or 'Price is required') on that field |
| `Schemas.StockMustBePositiveInteger` | src/modules/products/product.schemas.ts:8 | a `stock` of -5, 0 or 2.5 is refused by both schemas whatever else the body holds |
| `Schemas.NegativeStockPatchReported` | src/modules/products/product.schemas.ts:17 | `{stock: -5}` against the update schema gives exactly one issue, "not positive" on `stock` |
| `Airtable.Table.Create` | src/modules/products/product.repository.ts:10 | store assumption: a new record under a fresh non-empty id, replying with that one record; a fault changes nothing |
| `Airtable.Table.Select` | src/modules/products/product.repository.ts:14 | store assumption: the reply lists every record exactly once with its fields; it is recorded as the table's latest listing, in the order returned; the sort request is logged |
| `Airtable.Table.Find` | src/modules/products/product.repository.ts:19 | store assumption: the record for a known id; throws for an unknown id or a fault; no change |
| `Airtable.Table.Update` | src/modules/products/product.repository.ts:24 | store assumption: merges the given fields into a known record and replies with the result; throws otherwise with no change |
| `Airtable.Table.Destroy` | src/modules/products/product.repository.ts:28 | store assumption: removes a known id and replies with the record as it was; throws otherwise with no change |
| `Repository.FormatRecord` | src/modules/products/product.repository.ts:3-6 | null maps to null; otherwise the output's keys are the record's field names plus `id`, every field keeps its value, and `id` is the record id unless a field named `id` overrides it |
| `Repository.FormatRecordRoundTrip` | src/modules/products/product.repository.ts:5 | splitting `id` back off a formatted record gives the record, when it has no field called `id` |
| `Repository.IdFieldShadowsRecordId` | src/modules/products/product.repository.ts:5 | a field called `id` wins over the record id, so two records differing only in id format alike |
| `Repository.FormatFirst` | src/modules/products/product.repository.ts:10-11 | the formatted first element of a batch reply; null for an empty reply |
| `Repository.FormatAll` | src/modules/products/product.repository.ts:15 | one non-null product per record at the same position, whose keys are the record's field names plus `id` and whose fields keep their values |
| `Repository.FormatAllFollowsListing` | src/modules/products/product.repository.ts:15 | `findAll` yields one non-null product per listed record at the same position; a record with no field called `id` is given back by splitting `id` off again |
| `Repository.Create` | src/modules/products/product.repository.ts:9-12 | one create call with the given data; on success the table gains the data under a fresh id and the result is that record formatted; a failure propagates |
| `Repository.FindAll` | src/modules/products/product.repository.ts:13-16 | one select call asking for ascending `name`; on success the result is the store's reply formatted item by item, in the order the store returned it; the table is unchanged |
| `Repository.FindById` | src/modules/products/product.repository.ts:17-22 | null exactly when the lookup throws, for any cause; otherwise the formatted record; the table is unchanged |
| `Repository.Update` | src/modules/products/product.repository.ts:23-26 | one update call with only the given fields for the given id; on success the stored record is the merge and the result is it formatted |
| `Repository.Delete` | src/modules/products/product.repository.ts:27-30 | one destroy call for the id; on success the key is gone and the result is the deleted record formatted |
| `Service.Create` | src/modules/products/product.service.ts:4 | returns the repository's create result for the same data, unchanged |
| `Service.FindAll` | src/modules/products/product.service.ts:5 | returns the store's reply formatted item by item, unchanged and in the store's order, exactly as the repository gives it |
| `Service.FindById` | src/modules/products/product.service.ts:6-10 | fails with 'Product not found' exactly when the repository yields null; otherwise returns the repository's product, never null |
| `Service.Update` | src/modules/products/product.service.ts:11-14 | a failed lookup gives 'Product not found', with only the lookup logged and the table unchanged; after a successful lookup, exactly one update call with the same id and data, whose result or error is returned |
| `Service.Delete` | src/modules/products/product.service.ts:15-18 | a failed lookup gives 'Product not found', with no destroy call and the table unchanged; after a successful lookup, exactly one destroy call for the id |
| `Service.UpdateTwice` | src/modules/products/product.service.ts:11-14 | the same update sent twice to a stored id answers with the same product both times and leaves the record as after one update; on a missing id both answer 'Product not found' and nothing changes |
| `Service.DeleteThenFind` | src/modules/products/product.service.ts:8 | after a successful delete, a lookup of the same id fails with 'Product not found' |
| `ErrorHandler.HandleError` | src/shared/middlewares/errorHandler.ts:3-9 | status is 404 or 500; 404 iff the message is exactly 'Product not found', with body `{message: 'Product not found'}`; otherwise body `{message: 'Internal Server Error'}` |
| `ErrorHandler.InternalResponseIsOpaque` | src/shared/middlewares/errorHandler.ts:8 | every error other than 'Product not found' gets the same response, which does not echo the error's message |
| `Controller.ProductJson` | src/modules/products/product.controller.ts:8 | `res.json` of a product is the JSON object of its fields; of null, JSON null |
| `Controller.Settle` | src/modules/products/product.controller.ts:6-9 | a resolved call answers with the handler's status; a rejected one forwards the error unchanged and sets no status |
| `Controller.ListJson` | src/modules/products/product.controller.ts:14 | the response array has one entry per product, in order |
| `Controller.Create` | src/modules/products/product.controller.ts:5-10 | 201 with the created product, or the store's error forwarded |
| `Controller.FindAll` | src/modules/products/product.controller.ts:11-16 | 200 with the store's reply formatted item by item in the store's order, or the store's error forwarded |
| `Controller.FindById` | src/modules/products/product.controller.ts:17-22 | 200 with the product for the path id; 'Product not found' forwarded when the lookup fails |
| `Controller.Update` | src/modules/products/product.controller.ts:23-28 | 200 with the merged product; a failed lookup forwards 'Product not found' with no write; a failed write forwards the store's error |
| `Controller.Delete` | src/modules/products/product.controller.ts:29-34 | 204 with no body and the key removed; the deleted record is discarded; failures forwarded as for update |
| `Routes.Lookup` | src/modules/products/product.routes.ts:8-13 | the route chosen among the six registrations is one of them and serves the request's method and pattern; none is chosen iff no registration serves them |
| `Routes.FirstMatch` | src/modules/products/product.routes.ts:8-13 | the route found serves the request's method and pattern; no route found means none is registered for them |
| `Routes.FirstMatchIsEarliest` | src/modules/products/product.routes.ts:8-13 | the earliest registration serving the request is the one used |
| `Routes.RoutesAreDistinct` | src/modules/products/product.routes.ts:8-13 | six routes, no two for the same method and pattern |
| `Routes.LookupFindsEachRoute` | src/modules/products/product.routes.ts:8-13 | every registration is the one the lookup finds for its own method and pattern; no route is shadowed by an earlier one |
| `Routes.LookupTable` | src/modules/products/product.routes.ts:8-13 | POST `/` runs the create schema and `create`; GET `/` and GET `/:id` run no schema; PUT and PATCH `/:id` run the update schema and `update`; DELETE `/:id` runs no schema |
| `Routes.Unrouted` | src/modules/products/product.routes.ts:8-13 | exactly POST `/:id`, PUT `/`, PATCH `/` and DELETE `/` have no route |
| `Routes.LookupIsRegistered` | src/modules/products/product.routes.ts:8-13 | the ordered search equals the table read as a function of method and pattern |
| `Routes.PutAndPatchAgree` | src/modules/products/product.routes.ts:11-12 | PUT and PATCH `/:id` have the same validator and the same handler |
| `Routes.RouteTableWellFormed` | src/modules/products/product.routes.ts:8-13 | only POST `/` uses the create schema; exactly the read and delete routes skip validation; `/:id` routes are exactly those whose handlers take an id |
| `Pipeline.Finish` | src/app.ts:13 | a handler's own response is sent as is; a forwarded error is answered by the error handler |
| `Pipeline.Dispatch` | src/modules/products/product.controller.ts:5-34 | per handler: a failed member lookup gives the 404 response with no write; a failed write after a good lookup gives the error handler's answer; a good delete gives 204; a good create gives 201 with a fresh id; a failed create gives the error handler's answer; a good update merges the body and gives 200 with the merged product; GET by id gives 200 with the formatted record; the listing gives 200 with the store's reply formatted in the store's order and never changes the table |
| `Pipeline.Serve` | src/app.ts:11-13 | an unrouted or schema-rejected request never touches the store, and a rejection carries the schema's issues; statuses are among 200, 201, 204, 404, 500; DELETE on a missing id gives 404 and leaves the table unchanged; a valid PUT or PATCH on a stored id merges the body and answers 200 with the merged product; GET `/:id` answers 200 with the formatted record; GET `/` answers 200 with the store's reply formatted in the store's order, or the error handler's answer, and never changes the table |
| `Pipeline.LookupFailureIsNotFound` | src/modules/products/product.repository.ts:21 | any store failure during the lookup behind GET, PUT, PATCH or DELETE on a member reaches the client as 404, never 500 |
| `Pipeline.DeleteThenGet` | src/modules/products/product.service.ts:15-18 | once DELETE answers 204, a GET of the same id answers 404 |
| `Pipeline.NegativeStockPatch` | src/modules/products/product.routes.ts:12 | PATCH with `{stock: -5}` is refused with one issue naming `stock`, and the store sees no call |
| `Pipeline.PostKeyboard` | src/modules/products/product.controller.ts:7-8 | POST `{name: "Keyboard", price: 49.90}` on an empty healthy store stores exactly that record under a fresh non-empty id and answers 201 with it |
| `Pipeline.KeyboardBody` | src/modules/products/product.repository.ts:5-6 | the 201 body holds the name and price as sent and the record id under `id` |
| `Pipeline.KeyboardScenario` | src/modules/products/product.controller.ts:7-8 | POST `{name: "Keyboard", price: 49.90}` answers 201 with a non-empty id and the fields as sent; then an invalid PATCH is refused, DELETE answers 204 and GET answers 404 |

## Left out

- Concurrency: requests run one at a time. The gap between the existence check
  and the write in `update`/`delete` is not modelled. A record deleted in that
  gap would make the write fail with a store error, which would give a 500.
- The `validate` middleware (`validateSchema`) is not part of this model. Its
  400 status and response format are not modelled, and neither is whether it
  replaces `req.body` with Zod's parsed copy. A body that passes reaches the
  handler unchanged.
- Schemas.Validate: both schemas wrap their fields in a `body` member
  (product.schemas.ts:4,13). The model assumes `validate` parses
  `{ body: req.body, ... }` and checks the request body directly against that
  inner object, which is why a flat `{name, price}` passes. It also shortens
  Zod's issue path `["body", "name"]` to `name`.
- Zod internals: unknown-key stripping, coercion, issue messages other than
  the two `required_error` strings, and the full issue object.
- String length: Zod's `.min(3)` counts UTF-16 code units. The model counts
  Dafny characters (Unicode scalar values). The two differ only for characters
  outside the Basic Multilingual Plane.
- Numbers are exact reals. IEEE-754 rounding, NaN and infinities are not
  modelled; JSON cannot carry the last two.
- Airtable.Table.Select: does not model the store's sort by `name` or its
  paging. The reply order is whatever the table returns.
- Airtable.Table.Create: the id format (`rec` plus 14 characters) is not
  modelled, only that the id is new and non-empty. The store is assumed to
  keep fields exactly as sent.
- Airtable.Table.Destroy: the reply is modelled as the pre-deletion record.
  The real client may return only the id. The handler discards this value.
- Batches: each store primitive takes one record. That is all the repository
  ever sends.
- The raw store's not-found error is modelled as one fixed error. Its exact
  text only matters in that it is not 'Product not found'.
- Logging (`console.error` in the error handler), the environment and
  configuration reads (src/config/airtable.ts), the banner route and JSON body
  parsing in src/app.ts, and `app.listen`.
- src/server.ts: its schemas, repository and service copy the module files
  and are modelled once. Its controller, routes and error handler are elided
  stubs. Its `/test/...` pages use `Math.random` and HTML output.
- Express path parsing: a request path is given already split into "the
  collection" or "one member with this id". Express's own 404 for unrouted
  requests and HEAD-as-GET are not modelled.
- JSON key order in responses: the spread puts `id` first. Objects are maps
  here, so key order is not modelled.
