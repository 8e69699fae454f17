# Marketplace catalogue: a verified model

This project models the product catalogue service of a small marketplace
back end. Clients create, read, update and delete products. They attach an
image URL to a product. They append, list, read, update and delete reviews
that are embedded in a product. Failures go through a chain of error
handlers that turns each one into an HTTP status and a JSON body.

The document store becomes a `Catalog` object. It holds a map from ObjectId
to `Product`, plus a counter that hands out fresh ObjectIds. Each route
handler is a method of `Catalog`. It returns `Outcome<T>`, which is either
`Ok(value)`, the success answer, or `Fail(failure)`. The failure is one of:

- `BadId`: a Mongoose cast error on an id;
- `NotFoundProduct` or `NotFoundReview`: a 404 built by `createHttpError`;
- `Invalid`: a Mongoose validation error, with the failing schema paths;
- `Internal`: any other exception.

`Products.ErrorOf` gives the error object a handler passes to `next`.
`ErrorHandlers.Classify` gives the response the server's handler chain sends
for it.

Modules, one per source file:

- `Wrappers` (wrappers.dfy): `Option`, and the one-field overlay used by
  object spread.
- `Schema` (schema.dfy): `src/api/products/model.js`. It holds the `Review`
  and `Product` documents, the request bodies, the validity predicates
  `ValidReview`, `ValidProduct` and `ValidPatch`, and the lists of failing
  paths that the validators report.
- `ErrorHandlers` (error_handlers.dfy): `src/errorHandlers.js`, chained in
  the order of `src/server.js:20-23`.
- `Products` (products.dfy): `src/api/products/index.js`. It holds the
  `Catalog` class, the `find`/`findIndex` scans written as loops, `$pull`,
  and the field overlays.

The store invariant `Catalog.Valid` says four things about every stored
product:

- its id is its key;
- it satisfies the schema;
- its review ids are distinct;
- every id in it is below the counter.

Every mutating route keeps this invariant. Each one states its whole new
state. Each one leaves the store unchanged when it fails.

Three client methods, `Products.ChairScenario`, `Products.CreateThenGet`
and `Products.DeleteThenGet`, show that the route contracts are enough to
follow a concrete session:

- a created product reads back as the body with its fresh id;
- create a chair, review it with rating 4, then update the rating to 5 (the
  comment is kept);
- a product read after its deletion is a 404.

Behaviour that follows from the code and from Mongoose's semantics:

- An update (`PUT /:productId`) and a review append use `findByIdAndUpdate`
  with `runValidators`. The id is cast and the body validated before the
  query runs. So a malformed id is a 400, then an invalid body is a 400 even
  for a missing product, and only then is a missing product a 404. The
  validators look only at the paths the body sets.
- The review update uses `save`, which validates the whole document after
  the overlay.
- Read and update of one review compare `r._id.toString()` with the path
  text. A malformed review id there matches nothing and gives the
  review-scoped 404. Delete of one review casts the id inside `$pull`, so a
  malformed review id there is a cast error (400). A well-formed review id
  that matches nothing is a no-op that answers the unchanged product.
- A Mongoose validation error has no `errorsList` property. The 400 body for
  a schema failure therefore carries only the message; the failing paths
  appear in that message.
- A required String path rejects the empty string as well as a missing
  value.

## Model

| member | source | states |
|---|---|---|
| `Schema.ValidReview` | src/api/products/model.js:5-8 | definition: a review is valid when its comment is a non-empty string and its rating is present and within 1..5 inclusive |
| `Schema.ValidProduct` | src/api/products/model.js:10-19 | definition: name, description, brand and category are non-empty strings, price is present, imageUrl is unconstrained, and every embedded review is valid |
| `Schema.ValidPatch` | src/api/products/index.js:63 | definition: every path the update body sets passes its validator; paths the body omits are not checked |
| `Schema.Embed` | src/api/products/model.js:18 | casting review bodies into sub-documents keeps each body's fields, in order, and gives each review a distinct fresh id in the given range |
| `Schema.ReviewErrors` | src/api/products/model.js:5-8 | no failing path exactly when the comment is present and non-empty and the rating is present and within 1..5; every path reported is a field of the review at that index |
| `Schema.ReviewsErrors` | src/api/products/model.js:18 | no failing path exactly when every embedded review is valid; every path reported names a review within the range of indices |
| `Schema.ProductErrors` | src/api/products/model.js:10-19 | full-document validation reports no path exactly when the product is valid |
| `Schema.PatchErrors` | src/api/products/index.js:60-64 | update validation reports no path exactly when every field the body sets is valid |
| `Schema.RequiredFieldsNamed` | src/api/products/model.js:12-17 | each of name, description, brand, price and category is among the failing paths exactly when it is missing (or, for text, empty) |
| `Schema.ImageUrlOptional` | src/api/products/model.js:15 | validity never depends on imageUrl, so a product without it is valid when the rest is |
| `Schema.RatingBoundaries` | src/api/products/model.js:6-7 | ratings 1 and 5 are accepted; 0, 6, a missing rating and a missing comment are rejected |
| `Schema.BadReviewInvalidatesProduct` | src/api/products/model.js:18 | one invalid review makes the product invalid, and that review's index is named in a failing path |
| `Schema.ReviewsErrorsAt` | src/api/products/model.js:18 | an invalid review at position i contributes a failing path at index from+i |
| `ErrorHandlers.Claims` | src/errorHandlers.js:4-28 | definition: the guard of each handler; badRequest claims status 400, validation errors and cast errors (lines 4 and 10), unauthorized claims status 401 (line 18), notfound claims status 404 (line 28) |
| `ErrorHandlers.BadRequestHandler` | src/errorHandlers.js:3-15 | answers with 400 exactly for status 400, validation errors and cast errors: status 400 or a validation error gets the message and errorsList, any other cast error gets "Please enter a correct ID"; anything else is forwarded unchanged |
| `ErrorHandlers.UnauthorizedHandler` | src/errorHandlers.js:17-25 | answers 401 with the message exactly for status 401; otherwise forwards the error unchanged |
| `ErrorHandlers.NotFoundHandler` | src/errorHandlers.js:27-35 | answers 404 with the message exactly for status 404; otherwise forwards the error unchanged |
| `ErrorHandlers.GenericErrorHandler` | src/errorHandlers.js:37-40 | always 500 with the fixed server-side text and no error list |
| `ErrorHandlers.Apply` | src/server.js:20-22 | a registered handler answers exactly when its predicate claims the error, and otherwise passes the same error on |
| `ErrorHandlers.RunChain` | src/server.js:20-23 | definition: the first handler either answers, or the forwarded error goes to the rest; after the last one the generic handler answers |
| `ErrorHandlers.Classify` | src/server.js:20-23 | definition: the response is that of the chain badRequest, unauthorized, notfound, then generic |
| `ErrorHandlers.ChainAnswersFromFirstClaimant` | src/server.js:20-23 | the response for an error is the one from the first handler in the chain that claims it |
| `ErrorHandlers.ChainFallsThrough` | src/server.js:20-23 | an error no handler claims reaches the generic handler |
| `ErrorHandlers.ClassifyTable` | src/errorHandlers.js:3-40 | status 400 or validation: 400 with message and errorsList; other cast errors: 400 "Please enter a correct ID"; then 401 and 404 with the message; everything else: 500 with the fixed text |
| `ErrorHandlers.ClassifyStatus` | src/errorHandlers.js:37-40 | every error gets one of 400, 401, 404 or 500; a 500 happens exactly when no handler claims the error, and its body never carries the error's own text |
| `Products.ProductNotFoundText` | src/api/products/index.js:48-51 | definition: the product-scoped 404 message, "Product with id <productId> not found" |
| `Products.ReviewNotFoundText` | src/api/products/index.js:191-194 | definition: the review-scoped 404 message, "Review with id <reviewId> not found" |
| `Products.ErrorOf` | src/api/products/index.js:47-52 | route errors carry no errorsList, and only the two not-found failures carry status 404 |
| `Products.FailureResponses` | src/errorHandlers.js:3-40 | the response sent for each route failure: cast 400 with the fixed text, product or review 404 with its own message, validation 400, internal 500 |
| `Products.ScopesDiffer` | src/api/products/index.js:190-203 | a product-scoped not-found message never equals a review-scoped one |
| `Products.Matches` | src/api/products/index.js:185 | definition: a review matches a route parameter when the parameter casts to that review's id; a malformed parameter matches nothing |
| `Products.FirstMatch` | src/api/products/index.js:213-215 | the index of the first review whose id matches, or -1 exactly when none matches |
| `Products.FindReviewIndex` | src/api/products/index.js:213-215 | the linear scan returns the first matching index, or -1 |
| `Products.FindReview` | src/api/products/index.js:184-186 | the linear scan returns the first matching review, or nothing when none matches |
| `Products.Pull` | src/api/products/index.js:249 | the result is no longer, keeps only reviews of the input, drops every review with the id and keeps every other |
| `Products.PullConcat` | src/api/products/index.js:249 | pulling from a concatenation is the concatenation of the pulls, so the surviving reviews keep their order |
| `Products.PullOne` | src/api/products/index.js:249 | a single review is dropped exactly when its id is the pulled one |
| `Products.PullAbsent` | src/api/products/index.js:247-254 | pulling an id no review has leaves the sequence unchanged (deleting a missing review is a no-op, not a 404) |
| `Products.PullPresent` | src/api/products/index.js:247-251 | with distinct ids, pulling the id of the review at i removes exactly that element, and the length drops by one |
| `Products.PullDistinct` | src/api/products/index.js:249 | pulling keeps review ids distinct |
| `Products.NewProduct` | src/api/products/index.js:13-14 | a new document gets the fresh id, and its embedded reviews get distinct ids above it and below the next counter value |
| `Products.OverlayProduct` | src/api/products/index.js:60-62 | definition: every field the body sets replaces the stored one, a body array of reviews is embedded with fresh ids and replaces the stored array, and the id is kept |
| `Products.OverlayReview` | src/api/products/index.js:217-220 | definition: the review keeps its id, and each of comment and rating takes the body's value when present and the old value otherwise |
| `Products.OverlayKeepsValid` | src/api/products/index.js:60-64 | a valid product updated with a body whose set fields pass the update validators is still valid |
| `Products.OverlayFields` | src/api/products/index.js:60-64 | the update keeps the id; each of name, description, brand, imageUrl, price and category takes the body's value when the body sets it and keeps the stored value otherwise; a body array of reviews replaces the whole array with freshly embedded reviews, and an omitted one keeps the stored reviews |
| `Products.OverlayReviewLaws` | src/api/products/index.js:217-220 | the review overlay keeps the id and every omitted field; an empty body is the identity; overlaying twice equals overlaying once |
| `Products.ReplaceReviewValid` | src/api/products/index.js:217-221 | replacing one review of a valid product leaves it valid exactly when the new review is valid |
| `Products.Catalog.Valid` | src/api/products/model.js:10-19 | definition: the store invariant; every stored product is keyed by its own id, passes the product schema, has distinct review ids, and uses only ids below the counter |
| `Products.Catalog.Create` | src/api/products/index.js:11-19 | a valid body adds exactly one new id, that product and nothing else, and answers with the id; an invalid body answers the failing paths and changes nothing |
| `Products.Catalog.Get` | src/api/products/index.js:41-57 | malformed id: cast error; stored id: that product; otherwise the product-scoped 404; the store is not modified |
| `Products.Catalog.Update` | src/api/products/index.js:58-78 | cast error, then validation error, then product 404, each leaving the store unchanged; otherwise the stored and returned product is the overlay of the body on the old one |
| `Products.Catalog.Delete` | src/api/products/index.js:79-97 | an existing id is removed and nothing else changes; a missing or malformed id fails and changes nothing |
| `Products.Catalog.AttachImageAsWritten` | src/api/products/index.js:108-130 | as written: a missing upload or a missing product is an internal error (500), never the 404; otherwise only that product's imageUrl changes |
| `Products.Catalog.AttachImage` | src/api/products/index.js:108-130 | corrected: a missing product gives the product-scoped 404 and changes nothing; otherwise only that product's imageUrl changes |
| `Products.Catalog.SetImageUrl` | src/api/products/index.js:114-115 | sets imageUrl on one stored product and keeps the store invariant |
| `Products.Catalog.PushReview` | src/api/products/index.js:132-161 | succeeds exactly for a well-formed, stored id and a valid review; the new reviews are the old ones plus one fresh-id review at the end; other products are untouched; failures change nothing |
| `Products.Catalog.ListReviews` | src/api/products/index.js:163-179 | the stored reviews in stored order, or the cast error or product-scoped 404 |
| `Products.Catalog.GetReview` | src/api/products/index.js:180-208 | a missing product is the product-scoped 404 whatever the review id; otherwise the first matching review, or the review-scoped 404 |
| `Products.Catalog.UpdateReview` | src/api/products/index.js:209-242 | product 404 before review 404; only the first matching element is replaced, by the overlay of the body, so the length and the other elements stay; an invalid result and every failure leave the store unchanged |
| `Products.Catalog.DeleteReview` | src/api/products/index.js:243-266 | a stored product gets every review with the id pulled and is answered, with no review 404; a malformed id is a cast error; a missing product is the product 404 and changes nothing |

## Left out

- Listing with filters, projection, sorting and pagination (`src/api/products/index.js:20-40`). The query translation belongs to the `query-to-mongo` library, which is not part of this model. Filtering and sorting run inside the database. The page count uses floating-point division by a possibly undefined limit.
- The upload middleware (`src/api/products/index.js:99-106`) sends the file to an external media host. The path it reports is the `file` parameter of the image-attach methods. An asset uploaded for a product that turns out to be missing is orphaned; this is not modelled.
- Express wiring, JSON body parsing, the database connection and start-up (`src/server.js`), and the `console.log` of the generic handler are I/O and are not modelled.
- `createdAt`/`updatedAt` timestamps are not modelled: they come from the clock.
- ObjectId syntax is abstract. A route parameter carries its text and the id it casts to, if any. The text comparison of `find`/`findIndex` is taken to be id equality, which holds for the canonical lower-case hex form only.
- Field types are fixed: text fields are strings and numbers are reals. Mongoose's casting of other JSON types (a numeric string, `null`, NaN), its stripping of unknown fields, update operator keys in a `PUT /products/:productId` body (such as `$inc` or `$unset`, which `findByIdAndUpdate` applies as operators because the body itself is the update document), and an `_id` inside a request body (which could rename a review in the overlay) are not modelled.
- Validation messages list the failing paths in a simplified wording. A review appended with `$push` is reported at index 0.
- Failures of the store itself (a lost connection, a document deleted between read and save) are not modelled. The read-modify-write race of the review update under concurrent requests is outside a sequential model.
- The HTTP status of a successful answer is not modelled: `Outcome` carries only the value. Each route's success status is a fixed constant: 201 for create, 204 for delete, 200 for the others.
- `DELETE /:productId` calls `res.send(204).send()`. A successful delete is `Ok(())` in the model. Neither the 204 status nor what Express does with the second `send` is modelled; both depend on the Express version.
- Products.Catalog.PushReview: in the review's validation path, the review is always at index 0, not at its final position in the array.

## Findings

| source | as written | input that shows it | evidently intended | confidence | as-written member | corrected member |
|---|---|---|---|---|---|---|
| src/api/products/index.js:113-125 | `product.imageUrl = req.file.path` runs before `if (product)`. For a missing product this throws a TypeError on `null`, which the generic handler answers with 500, so the 404 branch is dead code | `POST /products/<well-formed id not stored>/uploadImage` with a file (`Products.AttachToMissingProduct`: id 7 on an empty catalogue) | a product-scoped 404, "Product with id 7 not found" | high; not executed | `Products.Catalog.AttachImageAsWritten` | `Products.Catalog.AttachImage` |
