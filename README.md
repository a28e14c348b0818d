# Maritime dashboard API: record-store access layer

A Dafny model of the part of the maritime dashboard backend that talks to the
QuickBase record store. It covers two files. The first is the
`QuickBaseService` class: its three query builders, the contact-update
whitelist and the vessel ownership check. The second is the `users` router,
with its GET `/me` and PATCH `/me` handlers.

- `json.dfy` (module `Json`): the JSON scalar values the code handles. It gives
  their JavaScript truthiness, their text inside a template literal, and plain
  objects read as `Object.entries` lists. A general JSON value stands for the
  parts of a store answer that are passed on unread.
- `quickbase.dfy` (module `QuickBase`):
  - the table ids and field ids;
  - the query builders and the payloads they produce;
  - the whitelist fold of `updateClientContact`, written as a loop that grows
    a map and proved equal to a recursive specification;
  - the ownership decision of `updateVesselStatus`;
  - the remote store, `RemoteStore`: an object that holds the store's answer
    function and the log of every request sent to it;
  - the service class, `QuickBaseService`, whose methods send their payloads
    through that store object.
- `users_routes.dfy` (module `UsersRoutes`): the two `/me` handlers as methods
  that take the remote store. Beside them are the pure functions that state
  their decisions: the not-found branch, the friendly-name mapping of the first
  row, the truthy pre-filter of the PATCH body and the error-to-500 mapping.

Modelling choices:
- A row is a map from numeric field id to the cell's value. The store's JSON
  keys are the decimal spellings of those ids. A cell `{ value: v }` is
  modelled as `v`.
- Reading a property of `undefined` throws a TypeError in JavaScript. A
  missing `data` list throws at `data[0]` itself. An empty list gives
  `undefined` for `data[0]`, and the next read (`["3"]` or `["7"]`) throws.
  A missing cell throws at `.value`. The model gives each such read the
  result `Err(TypeError)`. The surrounding `try` then turns it into a 500, and
  `updateVesselStatus` propagates it without writing.
- The remote store answers each request with a status and a body. Its answer
  may depend on every earlier request. A status outside 200–299 becomes
  `RemoteStoreError(status)`, as `makeRequest` throws.
- Comparing log contents states the properties about writes: no write when
  the owner differs, exactly one write when it matches, and no write on a
  404.

- `getClientByClerkId` does not fail when no row is found. It returns the
  store's answer as it is, and each handler makes the not-found check itself
  (`ClientLookup`).
- A store answer keeps its members other than `data` as unread JSON. PATCH
  /me forwards the whole answer as its `data`.

## Model

| member | source | states |
|---|---|---|
| `QuickBase.Received` | src/services/quickbase.js:33-39 | a reply is returned as-is exactly when its status is a success (2xx); otherwise the result is an error carrying the status |
| `QuickBase.QuickBaseService.constructor` | src/services/quickbase.js:8-12 | the service keeps the realm and user token from its configuration and the fixed base URL |
| `QuickBase.QuickBaseService.MakeRequest` | src/services/quickbase.js:17-40 | exactly one request is sent and appended to the store's log; the result is the store's reply, checked for a success status |
| `QuickBase.ClientQuery` | src/services/quickbase.js:47-51 | the client query reads the Clients table. Its filter is equality on the identity field 6 with the quoted `clerkUserId`, and it selects the six client fields, record id included |
| `QuickBase.VesselsQuery` | src/services/quickbase.js:60-64 | the vessels query reads the Vessels table. Its filter is equality on the owner field 7 with the client record id's text. It selects the record id and the status field but not the owner field |
| `QuickBase.VesselQuery` | src/services/quickbase.js:123-127 | the single-vessel query reads the Vessels table. Its filter is equality on the record-id field 3 with the vessel id's text, and it selects exactly the record id and the owner field |
| `QuickBase.QuickBaseService.GetClientByClerkId` | src/services/quickbase.js:46-54 | sends only the client query for the given identity (Clients table, the six client fields) and returns the store's answer |
| `QuickBase.QuickBaseService.GetVesselsByClientId` | src/services/quickbase.js:59-67 | sends only the Vessels query filtered on the owner field for the given client record id |
| `QuickBase.QuickBaseService.GetVesselById` | src/services/quickbase.js:122-130 | sends only the single-vessel query, which selects the record id and the owner field |
| `QuickBase.OwnerIsSelected` | src/services/quickbase.js:122-127 | the single-vessel query selects the owner field, so the owner the ownership check reads survives the store's projection unchanged |
| `QuickBase.WhitelistedFieldIds` | src/services/quickbase.js:75-90 | the whitelist fold produces only the field ids 8, 9 and 10 |
| `QuickBase.WhitelistedValues` | src/services/quickbase.js:85-90 | for each of email, phone and address: its field is set exactly when the updates hold that key, and then to the supplied value |
| `QuickBase.WhitelistIgnoresOtherKeys` | src/services/quickbase.js:85-90 | two update objects that agree on email, phone and address fold to the same fields, so no other key ever reaches the payload |
| `QuickBase.RecordIdNotUpdatable` | src/services/quickbase.js:75-79 | no whitelisted name maps onto the record-id field 3 |
| `QuickBase.ContactRow` | src/services/quickbase.js:83-91 | the upsert row holds field 3 equal to the client record id. Every other field is 8, 9 or 10. Each whitelisted key present in the updates appears under its field with exactly its value; absent ones are left out |
| `QuickBase.ContactUpsert` | src/services/quickbase.js:81-92 | the contact upsert writes one row to the Clients table: the contact row, whose field 3 is the client record id |
| `QuickBase.ContactUpsertTargetsClientTable` | src/services/quickbase.js:82 | the contact upsert goes to table `bq7xyz123`, the table the client query reads |
| `QuickBase.FoldWhitelist` | src/services/quickbase.js:85-90 | the entry-by-entry fold over the updates computes exactly the whitelist specification |
| `QuickBase.QuickBaseService.UpdateClientContact` | src/services/quickbase.js:73-95 | sends exactly one request, the Clients-table upsert of the contact row, and returns the store's answer |
| `QuickBase.FetchedOwner` | src/services/quickbase.js:102-104 | the owner is the field-7 value of the first fetched row; it is a TypeError when there is no data, no row or no owner cell, and the fetch's own error when the fetch failed |
| `QuickBase.StatusUpsert` | src/services/quickbase.js:108-114 | the status upsert writes one row to the Vessels table, holding only field 3 equal to the vessel id and field 12 equal to the status |
| `QuickBase.StatusWrite` | src/services/quickbase.js:102-114 | a write is planned exactly when the fetched owner is strictly equal to the requesting client. The write goes to table `bq8abc456` and is one row holding only field 3 equal to the vessel id and field 12 equal to the status. On mismatch it fails with Unauthorized |
| `QuickBase.QuickBaseService.UpdateVesselStatus` | src/services/quickbase.js:100-117 | the vessel query is always sent first. On a mismatch or an unreadable owner nothing else is sent and the failure is returned. On a match exactly one more request follows: the status upsert |
| `UsersRoutes.ClientLookup` | src/routes/vessels.js:15-22 | a lookup is not found exactly when the answer's data is missing or empty. A failed query stays a failure, and otherwise row 0 is the row used |
| `UsersRoutes.ClientProfileOf` | src/routes/vessels.js:22-30 | the profile exists exactly when row 0 has all six client cells. Its keys are exactly the six friendly names, each holding the value of its field |
| `UsersRoutes.ClientFieldsAreSelected` | src/routes/vessels.js:24-29 | the six friendly names map one-to-one onto the client query's select list |
| `UsersRoutes.ProfileRoundTrip` | src/routes/vessels.js:22-30 | translating a profile back to field ids gives the row restricted to the client query's select list, so no selected field is dropped |
| `UsersRoutes.ProfileUsesSelectedFields` | src/routes/vessels.js:22-30 | the profile depends only on the cells the client query selects |
| `UsersRoutes.ProfileKeysAreNames` | src/routes/vessels.js:23-30 | no key of a profile starts with a digit, so no numeric field id appears in the response |
| `UsersRoutes.MeResponse` | src/routes/vessels.js:14-36 | GET /me answers 404 "Client not found" exactly when the lookup finds no row. It answers 200 with the profile of row 0 exactly when the lookup succeeds and the row is complete. Every other case is 500 with a generic message |
| `UsersRoutes.GetMe` | src/routes/vessels.js:10-37 | the handler sends exactly one request, the client query for the caller's own identity, and answers as MeResponse says |
| `UsersRoutes.CopyIfTruthy` | src/routes/vessels.js:60-62 | the key is copied, with the body's value, exactly when the body holds a truthy value under it; every other key keeps its value |
| `UsersRoutes.ContactPatch` | src/routes/vessels.js:59-62 | the pre-filter keeps only email, phone and address. Each is kept exactly when the body holds a truthy value under it, and then with that value |
| `UsersRoutes.FilterContactUpdates` | src/routes/vessels.js:59-62 | the three conditional assignments build exactly the pre-filtered object ContactPatch describes |
| `UsersRoutes.ContactKeysAreWhitelisted` | src/routes/vessels.js:59-62 | the keys the handler forwards are exactly the keys the service whitelists |
| `UsersRoutes.ContactWrite` | src/routes/vessels.js:50-64 | an upsert is sent exactly when the caller's own lookup found a row with a record id, and it is the contact upsert for that record id and the filtered body |
| `UsersRoutes.ContactWriteFields` | src/routes/vessels.js:56-64 | the written row holds field 3 equal to row 0's record id. It holds a contact field exactly when the body's value for it is truthy, with that value, and no other field |
| `UsersRoutes.PatchedResponse` | src/routes/vessels.js:64-74 | 200 with `success`, the fixed message and the store's whole answer, `data` and every other member, when the upsert succeeds; 500 with a generic message when it fails |
| `UsersRoutes.PatchMe` | src/routes/vessels.js:43-75 | the handler first sends the caller's client query. With no row it answers 404, and with a failed lookup or a missing record id 500, both without writing. Otherwise it sends exactly one upsert, ContactWrite's, and answers as PatchedResponse says |
| `UsersRoutes.ScenarioWrite` | src/routes/vessels.js:56-64 | for record 42 and body `{phone: "555-1111", bogus: "x"}` the written row is exactly `{3: 42, 9: "555-1111"}` |
| `UsersRoutes.PatchScenario` | src/routes/vessels.js:43-75 | end to end, the second request of that PATCH is the upsert of exactly that row to the Clients table, and the handler answers 200 |

## Left out

- HTTP transport in `makeRequest`: the `fetch` call, URL building, headers,
  JSON serialisation and `response.json()` are not modelled. The store is an
  abstract answer function plus a request log. The realm and token are kept
  in the service but are not sent anywhere.
- Filter-string syntax: `where` is plain concatenated text. No escaping is
  done and none is claimed, so an identity holding a quote changes the filter.
- JavaScript prototype lookups on the whitelist object (such as `toString`)
  are not modelled. The whitelist is exactly its three entries.
- JSON values are scalars: null, booleans, integers and strings. Fractional
  numbers, NaN, and object or array values are not modelled, so `===` is
  Dafny equality.
- Numbers are exact, unbounded integers. JavaScript numbers are doubles, so
  this is faithful only below magnitude 2^53. Beyond it distinct integers can
  compare equal, which the owner test `!==` of `updateVesselStatus` would see.
  From 10^21 up JavaScript prints numbers with an exponent, so the filter
  text `Show` produces in the vessel queries differs there.
- Things the model assumes away:
  - a cell object that lacks its `value` key;
  - a store answer whose body is not an object;
  - a `data` that is present but is not a list.
- PATCH bodies are parsed JSON objects. A body that is not JSON fails in
  `c.req.json()` before the `try` and is handled by the application's error
  handler, which is not part of this model.
- The response shaping of `getVesselsByClientId` is not modelled, because
  the vessels router that would use it is not part of this model. Neither
  is the status code an `Unauthorized` error would get there.
- The application module is not part of this model: CORS, middleware,
  mounting, the health check and the 404/500 handlers.
- Not modelled: async/await, the logging in the `catch` blocks and the Hono
  context object. Identity verification is outside the model too; the
  caller's `clerkUserId` is an input.
- Concurrency: the read-then-write of `updateVesselStatus` is modelled as
  one sequence. Other callers' requests that could interleave with it are
  not modelled.
