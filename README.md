# Processor-rankings back office: store and navigation guard

This project models the two pieces of logic in the back-office console for
phone-processor rankings:

- the **processor-list store** returned by `useProcessors()`: a list of
  processor records mirrored from the server, a `loading` flag and an `error`
  slot (`null` or a message), changed by four operations — fetch, add,
  update, delete — once their HTTP request has settled;
- the **navigation guard** over the router's route table, which sends a
  visitor without a stored token from any route that requires
  authentication back to the login page `/`.

Files:

- `options.dfy` — `Option` (a value or `null`) and `Response` (a request that
  resolved with a payload, or failed).
- `processor.dfy` — the raw server record, JavaScript truthiness of its
  fields, the processor record, and the total defaulting map applied to a
  fetch response.
- `processor_store.dfy` — `findIndex`, the in-place replacement and the
  `filter` as pure functions, and the class `Store` whose fields
  `processors`, `loading` and `error` the four methods update.
- `router.dfy` — the route table literal, the matched chain of a path, and
  the guard as a pure decision `Redirect("/")` / `Proceed`.

Every HTTP call is replaced by an input of type `Response`: `Success(payload)`
when the request resolves and `Failure` when it rejects. The stored token is
an input `Option<string>` (`null` when nothing is stored). Each store method
models one operation as a single atomic step taken after its request has
settled.

A successful add appends the server's record to the list (it does not
replace the list), and no operation ever clears the error slot.

## Model

| member | source | states |
|---|---|---|
| `Processor.Truthy` | src/core/data/useProcessor.ts:19-25 | the truthiness `||` tests: a raw field is truthy only when it is a non-empty string; its meaning is stated through `Processor.OrDefault` and `Processor.FalsyFieldsAgree` |
| `Processor.OrDefault` | src/core/data/useProcessor.ts:19-25 | `raw || default`: the raw string when it is truthy (a non-empty string), otherwise the default; never empty when the default is not |
| `Processor.FromRaw` | src/core/data/useProcessor.ts:17-26 | the per-record arrow function of the fetch mapping; its contract is stated by `Processor.FromRawFields` |
| `Processor.FromRawFields` | src/core/data/useProcessor.ts:17-26 | a mapped record copies `id`, takes each of the seven string fields from the raw value when truthy and otherwise "Unknown Processor", "Unrated", "N/A" (four times) or "Unknown GPU", has no empty field, and carries no `createdAt`/`updatedAt` |
| `Processor.FalsyFieldsAgree` | src/core/data/useProcessor.ts:19-25 | for each of the seven string fields, a missing, `null` or empty value all produce the same mapped record |
| `Processor.FromRawAll` | src/core/data/useProcessor.ts:17-26 | the mapped response has exactly one record per raw element, same length and order, each the per-record mapping of its element |
| `Processor.PartialRecordDefaults` | src/core/data/useProcessor.ts:17-26 | a response holding `{id: 1, processor: "Snapdragon 8", rating: "A"}` maps to that record with "N/A" for the four scores and "Unknown GPU" |
| `ProcessorStore.FindIndex` | src/core/data/useProcessor.ts:48 | -1 exactly when no entry has the id; otherwise an in-range index holding the id with no earlier entry holding it; `null` ids match each other |
| `ProcessorStore.ReplaceFirst` | src/core/data/useProcessor.ts:48-51 | the length is unchanged; with no matching entry the list is exactly the same; otherwise the first matching position holds the argument and every other position is unchanged |
| `ProcessorStore.ReplaceFirstContains` | src/core/data/useProcessor.ts:48-51 | the argument is in the updated list exactly when some entry had its id before |
| `ProcessorStore.ReplaceFirstIdempotent` | src/core/data/useProcessor.ts:45-55 | a second successful update with the same record changes nothing |
| `ProcessorStore.RemoveId` | src/core/data/useProcessor.ts:61 | no entry of the result has the id, and every entry of the old list without that id survives |
| `ProcessorStore.RemoveIdAppend` | src/core/data/useProcessor.ts:61 | filtering splits over concatenation, so survivors keep their relative order |
| `ProcessorStore.RemoveIdAbsent` | src/core/data/useProcessor.ts:61 | deleting an id no entry has leaves the list exactly as it was |
| `ProcessorStore.RemoveIdIdempotent` | src/core/data/useProcessor.ts:58-65 | deleting the same id twice gives the same list as deleting it once |
| `ProcessorStore.RemoveIdLength` | src/core/data/useProcessor.ts:61 | the new length is the old length minus the number of entries carrying the id |
| `ProcessorStore.RemoveIdUnique` | src/core/data/useProcessor.ts:58-61 | when exactly one entry carries the id, the result is the list with that one position cut out, one element shorter |
| `ProcessorStore.AddThenDelete` | src/core/data/useProcessor.ts:35-65 | deleting the id of a record a successful add just appended gives the same list as deleting it before the add |
| `ProcessorStore.DeleteThenUpdate` | src/core/data/useProcessor.ts:45-65 | after a successful delete of an id, an update carrying that id leaves the list unchanged |
| `ProcessorStore.Store.constructor` | src/core/data/useProcessor.ts:8-10 | the initial state is an empty list, `loading` true and no error |
| `ProcessorStore.Store.Fetch` | src/core/data/useProcessor.ts:13-32 | `loading` ends false on both paths; on success the list is the mapped response and the error slot is as before; on failure the list is unchanged and the error is "Failed to fetch processor rankings" |
| `ProcessorStore.Store.Add` | src/core/data/useProcessor.ts:35-42 | on success the server's record is appended at the end and all earlier entries are unchanged; on failure the list is unchanged and the error is "Failed to add processor"; `loading` is untouched |
| `ProcessorStore.Store.Update` | src/core/data/useProcessor.ts:45-55 | on success the list is the first-match replacement of the old list; on failure the list is unchanged and the error is "Failed to update processor"; `loading` is untouched |
| `ProcessorStore.Store.Delete` | src/core/data/useProcessor.ts:58-65 | on success the list is the old list with every entry of that id filtered out; on failure the list is unchanged and the error is "Failed to delete processor"; `loading` is untouched |
| `Router.LoginRoute` | src/router/index.ts:8-12 | the login record at `/`, with no meta; `Router.LoginResolvesPublic` states that it is public |
| `Router.DashboardRoute` | src/router/index.ts:13-57 | the `/dashboard` layout record with `requiresAuth` and its four children; `Router.DashboardChildrenProtected` states that its children are protected |
| `Router.Routes` | src/router/index.ts:7-59 | the route table: login, then the dashboard layout; `Router.NonLoginPathsProtected` states that every path but `/` is protected |
| `Router.Resolve` | src/router/index.ts:7-59 | the matched chain is non-empty exactly when some record of the table, at any depth, has the path; it then starts at a top-level record, each record is a child of the one before, and it ends at a record with that path |
| `Router.RequiresAuth` | src/router/index.ts:65 | the `record.meta.requiresAuth` test: true only for a record whose flag is set to true; used by `Router.SomeRequiresAuth` |
| `Router.Authenticated` | src/router/index.ts:64-65 | the truthiness of the stored token: present and not empty; `Router.EmptyTokenIsNoToken` states that an empty token counts as none |
| `Router.SomeRequiresAuth` | src/router/index.ts:65 | true exactly when some matched record has a truthy `requiresAuth` |
| `Router.Guard` | src/router/index.ts:63-70 | the guard makes one decision, redirect to `/` or proceed; it redirects exactly when some matched record requires authentication and the token is absent or empty |
| `Router.RedirectsWithoutToken` | src/router/index.ts:64-66 | a protected record in the chain and no truthy token redirect to `/` |
| `Router.ProceedsWithToken` | src/router/index.ts:64-68 | with a non-empty token every navigation proceeds |
| `Router.ProceedsWhenPublic` | src/router/index.ts:65-68 | with no protected record in the chain the navigation proceeds whatever the token |
| `Router.EmptyTokenIsNoToken` | src/router/index.ts:64-65 | an empty token decides exactly as a missing one |
| `Router.LoginResolvesPublic` | src/router/index.ts:8-12 | `/` resolves to the login record alone, and it does not require authentication |
| `Router.DashboardResolvesToParentAndChild` | src/router/index.ts:13-29 | `/dashboard` matches the layout record followed by its first child, which shares the path |
| `Router.NoRedirectLoop` | src/router/index.ts:63-69 | a navigation to the guard's redirect target always proceeds |
| `Router.NonLoginPathsProtected` | src/router/index.ts:13-19 | every path of the table other than `/` resolves to a chain headed by the `/dashboard` layout record, and redirects unless a truthy token is stored |
| `Router.DashboardChildrenProtected` | src/router/index.ts:13-57 | every child route of `/dashboard` redirects to `/` without a truthy token, because its parent is in the matched chain |

## Left out

- The HTTP client, the hard-coded API URL and the URL strings of the requests: each request is an input `Response`.
- The argument of `addProcessor` only becomes the request body; the state after the add depends on the server's reply alone, so `Store.Add` takes only that reply.
- The server's reply to an add is pushed without the defaulting map; the model types it as a processor record and does not model a reply of another shape.
- Raw fields that are JSON numbers, booleans or objects: a raw field is modelled as missing, `null` or a string.
- A raw record without an `id` property: JavaScript distinguishes `undefined` from `null` under `===`; the model represents both as no id.
- `createdAt` and `updatedAt` are declared as strings but the fetch mapping never sets them; the model holds them as optional values and gives them no meaning.
- `Store.Add` and `Store.Update`: `push` and the indexed assignment store the server's or the caller's object by reference; the list is a sequence of values, so a later change the caller makes to its argument does not show up in the model's list.
- `Store.Fetch`: a reply whose `data.data` is not an array, or holds a `null` element, throws inside the mapping and takes the failure path; the model expresses such a reply only as `Failure`.
- Vue reactivity and the mount hook: `Store.constructor` is the state before the first fetch; the fetch the hook starts is a call to `Store.Fetch`.
- Overlapping asynchronous operations and the moment `loading` is true while a fetch is in flight: each operation is one step after its request settles.
- Reading the token from browser storage: the token is an input.
- Route resolution is modelled as an exact match on static paths, searching a record's children before the record itself; vue-router's path parsing, parameters and ranking, the history mode, route names' uniqueness, the lazily loaded components and the `pageTitle`/`breadcrumbs` meta are not modelled. An unknown path yields an empty chain.
- `Router.Resolve`: vue-router matches paths case-insensitively and accepts a trailing slash by default, so `/Dashboard` or `/dashboard/` resolves to the dashboard chain and redirects a visitor without a token; in the model these paths resolve to an empty chain and the guard proceeds.
- The guard's `next` callback is modelled by its result: the function returns exactly one decision, which stands for exactly one call of `next`.
- The bootstrap, the theme store and the customers fixture hold no logic of the store or the guard and are not part of this model.
