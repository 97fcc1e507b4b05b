# Tailoring portal and Taletique contact form, modelled in Dafny

This project models the server side of the tailoring portal (DataMigrator) and the
contact form of the static Taletique site.

The portal keeps three tables: users, orders and measurements. A customer files
orders and keeps one set of body measurements. An admin sees every customer's data,
lists the customers and reads order statistics.

Each piece of the code corresponds to a module:

- `Schema` models the schema: the three enumerations, the three row types, and their
  column defaults and not-null columns. It also models the insert shapes, which drop
  `id`, `createdAt` and `updatedAt`. Validating a JSON body against one of these shapes
  is written as a function that returns either the insert record or the list of
  offending keys.
- `Storage` models the table layer. Every query is a function of the tables. Every
  write is a function from the old tables to the new tables and a result. The module
  states the invariants the tables keep and proves that each write preserves them. It
  also proves what a read sees after each write.
- `StorageClass` holds the class `DatabaseStorage`. Its fields are the three tables,
  the clock and the id supply. Each mutator is a method proved equal to its write
  function, and each keeps `Valid()`.
- `Routes` models the HTTP handlers. The decision logic of each route is a function
  of the tables, the caller and the request: 401, 404, 400, 403, the store call, and
  the answer. A handler method performs the same steps against a `DatabaseStorage`.
  It overwrites the body's `customerId` in place, as the code does. Read-only routes
  have no `modifies` clause.
- `ContactForm` models `app.py`. Its copy `TaleStitch/app.py` is byte-identical, so
  every `ContactForm` row below holds for `TaleStitch/app.py` at the same lines. A
  POST is routed, the five form fields are extracted, the required fields and the
  email are checked, and data/contacts.json gets its append. The file is a field of
  the handler class.

Several representation choices run through the model:

- Timestamps are naturals from a store clock that ticks once per write that stamps a row (every write but a delete).
- Generated row ids come from a counter. User ids are the identity provider's strings.
- Decimal columns are integers (hundredths).
- A JSON key that may be left out, or given as null, is a `Field<Option<T>>`.

Where the code's behaviour may surprise a reader, the model follows the code:

- A measurement update writes only the keys present in the body. A left-out
  dimension keeps its old value (storage.ts:113-115 spreads the parsed body into
  `.set`). It is not set to null.
- `GET /api/auth/user` returns the `getUser` result as it is. When there is no row it
  answers 200 with an empty body (`res.json(undefined)` writes nothing), never 404.
  The model writes that answer as `UserJson(None)`.
- An empty order title is accepted, because the insert shape only requires a string.
- `getOrders` tests its argument for JavaScript truthiness, so a customer id of `""`
  means no filter. The same goes for an empty `customerId` query parameter on
  `GET /api/measurements`, which falls back to the caller.
- `role` is a nullable free string. Only `"admin"` and `"customer"` carry meaning.

## Model

| member | source | states |
|---|---|---|
| Schema.ParseStatus | DataMigrator/shared/schema.ts:41-48 | a label is accepted exactly when it is one of the six status names, and the value read back prints as that label |
| Schema.ParsePriority | DataMigrator/shared/schema.ts:51-56 | a label is accepted exactly when it is one of low, medium, high, urgent, and reads back as itself |
| Schema.ParseServiceType | DataMigrator/shared/schema.ts:59-65 | a label is accepted exactly when it is one of the five service types, and reads back as itself |
| Schema.EnumLabelsRoundTrip | DataMigrator/shared/schema.ts:41-65 | parsing the label of any status, priority or service type gives that value back |
| Schema.NewUser | DataMigrator/shared/schema.ts:29-38 | an inserted user keeps the given id and every supplied column, leaves each other profile column null, gets role customer when no role is supplied, and is created and updated now |
| Schema.OverwriteUser | DataMigrator/server/storage.ts:52-58 | an upsert over an existing user writes only the supplied columns, keeps id and creation time, and refreshes the update time |
| Schema.ParseUser | DataMigrator/shared/schema.ts:106-110 | the user insert shape has no required column, so validation always succeeds and keeps email, names, image URL and role as given |
| Schema.ParseOrder | DataMigrator/shared/schema.ts:68-80 | a body is valid exactly when customerId, title and a known serviceType are present and status and priority are known labels or null; a rejection names each offending key; an accepted body keeps every given column |
| Schema.NewOrder | DataMigrator/shared/schema.ts:68-80 | an inserted order has its fresh id, now as both timestamps, the given customer, title, service type, description, price and due date (null when left out), status pending and priority medium when left out |
| Schema.OrderDefaults | DataMigrator/shared/schema.ts:74-75 | a valid body without status or priority yields an order with status pending and priority medium |
| Schema.EmptyOrderRejected | DataMigrator/shared/schema.ts:70-73 | an empty body is rejected naming customerId, title and serviceType |
| Schema.ApplyPatch | DataMigrator/server/storage.ts:84-91 | a patch changes exactly the columns it gives, keeps id and creation time, and sets the update time to now |
| Schema.EmptyPatchTouchesOnly | DataMigrator/server/storage.ts:87 | an empty patch changes nothing but the update time |
| Schema.OverlayDims | DataMigrator/shared/schema.ts:87-98 | each of the twelve dimensions takes the given value when one is given, else keeps the old one |
| Schema.ParseMeasurement | DataMigrator/shared/schema.ts:83-103 | a measurement body is valid exactly when customerId is present; all twelve dimensions and notes are optional and nullable; a rejection names customerId only |
| Schema.NewMeasurement | DataMigrator/shared/schema.ts:87-100 | a first measurement row has its fresh id, the given owner and columns, null for every left-out column, and now as both timestamps |
| Schema.RewriteMeasurement | DataMigrator/server/storage.ts:111-115 | an update in place keeps the row's id and creation time, writes the given columns, keeps the others, and refreshes the update time |
| Schema.ServerFieldsIgnored | DataMigrator/shared/schema.ts:106-122 | whatever a body says about id, createdAt and updatedAt, order, measurement and user validation give the same result |
| Storage.FindUser | DataMigrator/server/storage.ts:43-46 | the user is found exactly when a row with that id exists, and the row found has that id |
| Storage.FindOrder | DataMigrator/server/storage.ts:74-77 | the order is found exactly when a row with that id exists, and the row found has that id |
| Storage.OrdersFor | DataMigrator/server/storage.ts:64-72 | the listing holds exactly the orders of the given customer, or every order when there is no filter |
| Storage.OrdersForNewestFirst | DataMigrator/server/storage.ts:64-72 | in a well-formed table the listing is sorted by creation time, newest first |
| Storage.LatestFor | DataMigrator/server/storage.ts:98-105 | a row is returned exactly when the customer has one; it is that customer's row with the largest update time |
| Storage.LatestIsOnlyRow | DataMigrator/server/storage.ts:98-105 | with one row per customer, the customer has at most one row and the lookup returns it |
| Storage.CustomersOf | DataMigrator/server/storage.ts:127-133 | the listing holds exactly the users whose role is customer |
| Storage.CustomersNewestFirst | DataMigrator/server/storage.ts:127-133 | in a well-formed table the customer listing is sorted by creation time, newest first |
| Storage.StatsOf | DataMigrator/server/storage.ts:135-154 | totalOrders is the number of orders, activeCustomers the number of customer users, pendingFittings the number of orders awaiting a fitting, and pendingFittings is at most totalOrders |
| Storage.OverwriteUsers | DataMigrator/server/storage.ts:52-58 | the user with the id is overwritten and every other row is unchanged |
| Storage.PatchOrders | DataMigrator/server/storage.ts:85-89 | the order with the id is patched and every other row is unchanged |
| Storage.RewriteRows | DataMigrator/server/storage.ts:111-116 | the measurement row with the id is rewritten and every other row is unchanged |
| Storage.UpsertUserOn | DataMigrator/server/storage.ts:48-61 | a new id appends one user; an existing id overwrites that user's supplied columns, keeping the others and its creation time, and keeps every other user; a taken email is refused with the tables unchanged; orders and measurements are untouched |
| Storage.CreateOrderOn | DataMigrator/server/storage.ts:79-82 | exactly one order is appended, with a fresh id, the supplied columns and the defaults, and every existing order is kept; an unknown customer is refused with the tables unchanged |
| Storage.UpdateOrderOn | DataMigrator/server/storage.ts:84-91 | an absent id changes nothing and returns no row; otherwise only that order changes, by the patch; an unknown new owner is refused |
| Storage.DeleteOrderOn | DataMigrator/server/storage.ts:93-95 | exactly the orders with that id are removed and nothing else changes |
| Storage.SaveMeasurementsOn | DataMigrator/server/storage.ts:107-124 | the customer's current row is rewritten in place with its id kept, or a first row is inserted; an insert for an unknown customer is refused; users and orders are untouched |
| Storage.UpsertUserKeepsWellFormed | DataMigrator/server/storage.ts:48-61 | an upsert keeps the table invariants: ids and emails unique, creation times increasing, update times in order |
| Storage.CreateOrderKeepsWellFormed | DataMigrator/server/storage.ts:79-82 | creating an order keeps the table invariants |
| Storage.UpdateOrderKeepsWellFormed | DataMigrator/server/storage.ts:84-91 | updating an order keeps the table invariants |
| Storage.DeleteOrderKeepsWellFormed | DataMigrator/server/storage.ts:93-95 | deleting an order keeps the table invariants |
| Storage.SaveMeasurementsKeepsWellFormed | DataMigrator/server/storage.ts:107-124 | saving measurements keeps the table invariants, including one row per customer |
| Storage.UpsertedUserIsFound | DataMigrator/server/storage.ts:48-61 | after an upsert the user is found under its id with the written columns, and no two users share an id |
| Storage.CreatedOrderListedFirst | DataMigrator/server/storage.ts:79-82 | a new order heads both the listing of all orders and its customer's listing |
| Storage.CreatedOrderCounts | DataMigrator/server/storage.ts:135-154 | after a create the total grows by one, pending fittings grow by one exactly when the new order awaits a fitting, and the customer count is the same |
| Storage.PatchedOrderFound | DataMigrator/server/storage.ts:84-91 | after a patch by id the lookup by id returns the patched row |
| Storage.UpdatedOrderIsFound | DataMigrator/server/storage.ts:84-91 | after an update the order is found with the returned values, and its update time is later than its creation time |
| Storage.DeleteAbsentIsNoop | DataMigrator/server/storage.ts:93-95 | deleting an id that is not present leaves the tables unchanged |
| Storage.DeleteIsIdempotent | DataMigrator/server/storage.ts:93-95 | deleting twice is the same as deleting once |
| Storage.SavedMeasurementsAreCurrent | DataMigrator/server/storage.ts:107-124 | after a save the measurement lookup returns the written row; an update keeps the customer's row count, an insert makes it one |
| StorageClass.DatabaseStorage.constructor | DataMigrator/server/storage.ts:157 | the store starts with empty, well-formed tables |
| StorageClass.DatabaseStorage.UpsertUser | DataMigrator/server/storage.ts:48-61 | the new tables and result are those of the upsert specification, and the invariants hold |
| StorageClass.DatabaseStorage.CreateOrder | DataMigrator/server/storage.ts:79-82 | the new tables and result are those of the create specification, and the invariants hold |
| StorageClass.DatabaseStorage.UpdateOrder | DataMigrator/server/storage.ts:84-91 | the new tables and result are those of the update specification, and the invariants hold |
| StorageClass.DatabaseStorage.DeleteOrder | DataMigrator/server/storage.ts:93-95 | the new tables are those of the delete specification, and the invariants hold |
| StorageClass.DatabaseStorage.CreateOrUpdateMeasurements | DataMigrator/server/storage.ts:107-124 | the read-then-write upsert gives the tables and result of the save specification, and the invariants hold |
| Routes.CallerRow | DataMigrator/server/routes.ts:27-28 | the caller's row is found exactly when there is a caller and a user with that id exists |
| Routes.OwnedOrder | DataMigrator/server/routes.ts:59-62 | a non-admin's order is filed under the caller, an admin's keeps its customerId, and no other column changes |
| Routes.OwnedMeasurement | DataMigrator/server/routes.ts:139-142 | a non-admin's measurements are saved under the caller, an admin's keep their customerId, and no other column changes |
| Routes.MeasurementTarget | DataMigrator/server/routes.ts:108 | the target is the non-empty query parameter when there is one, else the caller |
| Routes.AuthUserOn | DataMigrator/server/routes.ts:13-22 | with a caller the answer is 200 with the caller's row, or no user (`UserJson(None)`) when there is none; no caller is 401 |
| Routes.ListOrdersOn | DataMigrator/server/routes.ts:25-46 | no caller is 401 and a caller with no row 404; otherwise 200 listing exactly the visible orders (all of them for an admin, the caller's own for anyone else), newest first |
| Routes.CreateOrderRouteOn | DataMigrator/server/routes.ts:48-73 | 401, then 404, then 400 with the validation errors, each leaving the tables unchanged; 200 exactly when the body is valid and its owner exists, with the tables and row of the store's create on the validated body, filed under the caller unless the caller is an admin |
| Routes.PatchOrderRouteOn | DataMigrator/server/routes.ts:75-102 | a missing order is 404 before any ownership check; 403 exactly when the order exists and a non-admin does not own it; every failure leaves the tables unchanged; success is the store update |
| Routes.MeasurementsRouteOn | DataMigrator/server/routes.ts:105-126 | 403 exactly when a non-admin asks about another customer; 200 exactly when the caller has a row and may ask, with that customer's current measurements |
| Routes.SaveMeasurementsRouteOn | DataMigrator/server/routes.ts:128-153 | 401, 404, then 400 naming customerId, each leaving the tables unchanged; 200 exactly when the body is valid and the save succeeds, answering with the saved row, saved under the caller unless the caller is an admin |
| Routes.CustomersRouteOn | DataMigrator/server/routes.ts:156-171 | 403 when the caller has no row or is not an admin; only an admin gets 200, with the store's customer listing: exactly the customer users, newest first |
| Routes.StatsRouteOn | DataMigrator/server/routes.ts:173-188 | 403 when the caller has no row or is not an admin; only an admin gets 200, answering with exactly the store's statistics |
| Routes.GetAuthUser | DataMigrator/server/routes.ts:13-22 | the handler answers as the route specification does, and cannot change the store |
| Routes.GetOrders | DataMigrator/server/routes.ts:25-46 | the handler answers as the route specification does, and cannot change the store |
| Routes.PostOrders | DataMigrator/server/routes.ts:48-73 | the handler's new tables and answer are those of the route specification, and the invariants hold |
| Routes.PatchOrder | DataMigrator/server/routes.ts:75-102 | the handler's new tables and answer are those of the route specification, and the invariants hold |
| Routes.GetMeasurements | DataMigrator/server/routes.ts:105-126 | the handler answers as the route specification does, and cannot change the store |
| Routes.PostMeasurements | DataMigrator/server/routes.ts:128-153 | the handler's new tables and answer are those of the route specification, and the invariants hold |
| Routes.GetAdminCustomers | DataMigrator/server/routes.ts:156-171 | the handler answers as the route specification does, and cannot change the store |
| Routes.GetAdminStats | DataMigrator/server/routes.ts:173-188 | the handler answers as the route specification does, and cannot change the store |
| ContactForm.FieldValue | app.py:52-57 | a form key that is absent is the empty string; otherwise its first value is taken |
| ContactForm.ExtractContact | app.py:52-58 | the record holds the five fields, each defaulted to the empty string, and the timestamp |
| ContactForm.MissingFields | app.py:62-63 | a field is missing exactly when it is one of name, email, phone, service and is empty; message is never missing |
| ContactForm.MissingFieldsInOrder | app.py:62-63 | the missing fields are listed in the order name, email, phone, service |
| ContactForm.Join | app.py:66 | no items give the empty string, one item gives itself, and the list starts with its first item |
| ContactForm.Loaded | app.py:94-100 | a missing file, or one that is not valid JSON, is read as an empty list |
| ContactForm.SavedFile | app.py:84-112 | the saved list is the loaded list plus the new record; a file whose value is not a list, or whose bytes are not valid text, is left alone |
| ContactForm.HandleOn | app.py:41-82 | an undecodable body is an internal error; missing fields give the error listing them; the email check runs only after that; only a complete submission with a plausible email appends the record and sends the thank-you page; every failure leaves the file unchanged |
| ContactForm.PostOn | app.py:34-39 | a POST to a path other than /contact is 404 and changes nothing |
| ContactForm.SubmissionAppendsOne | app.py:94-107 | a successful submission adds exactly one record, at the end, and keeps every earlier record in its place |
| ContactForm.TaletiqueHandler.SaveContactInfo | app.py:84-112 | the file afterwards is the saved file of the specification |
| ContactForm.TaletiqueHandler.HandleContactForm | app.py:41-82 | the reply and the file afterwards are those of the form specification |
| ContactForm.TaletiqueHandler.DoPost | app.py:34-39 | the reply and the file afterwards are those of the routing specification |

## Left out

- The React client (`client/src`) and `script.js` are left out: they render pages and handle DOM events. They compute nothing the server relies on.
- `database.py`, `run_server.py`, `TaleStitch/run_server.py` and `TaleStitch/server/index.ts` are left out: they open connections, spawn processes and forward signals.
- The session layer (`setupAuth`, `isAuthenticated`) is foreign code. Each route takes an optional caller id instead, and no caller is 401.
- Schema validation internals are left out. Validation is modelled by the keys it accepts and rejects. Its error objects are reduced to the list of offending keys.
- Decimal precision and scale (10,2 for price, 5,2 for dimensions) are not enforced. Values are unbounded integer hundredths.
- Clock values are modelled as a counter, so two writes never share a timestamp. The model does not cover ties between equal database timestamps.
- Generated UUIDs are modelled as a counter, so a collision cannot occur.
- Concurrent requests are left out, including the race between the read and the write in `createOrUpdateMeasurements`. Requests are taken one at a time.
- Storage failures other than the foreign-key and unique-email violations are out of scope (for example a lost connection). Those two become the routes' 500 answers.
- Storage.UpsertUserOn: the user id is always supplied; an upsert relying on the column's generated id is not modelled (the identity layer always passes one).
- Storage.WellFormed does not include the foreign-key invariant "every order and measurement belongs to an existing user". The writes still refuse a missing owner.
- Routes.PatchOrderRouteOn: the PATCH body is taken as a typed partial order. A raw body carrying `id`, `createdAt` or keys of the wrong type would be passed to the update unvalidated; that is not modelled.
- `deleteOrder` has no route, so it is modelled only in the store.
- A query parameter `customerId` given more than once (an array) is not modelled.
- Console logging in every handler is left out.
- Routes.AuthUserOn: response bodies are abstract values, not serialised JSON; the empty body sent for a caller without a row is written `UserJson(None)`.
- ContactForm.HandleOn: reading the body by `Content-Length`, UTF-8 decoding and URL-decoding are reduced to a form that decoded (`Some`) or failed (`None`).
- ContactForm.SavedFile: an error while saving is swallowed and the thank-you page is still sent. The model covers the errors that come from the file's content (a value that is not a list, bytes that are not valid text); errors of the file system itself, such as a failed write, are not modelled.
- The contact form's HTML pages are reduced to a status and the message they show. Serving static files (`do_GET`) is left out.
