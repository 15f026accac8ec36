# base-ts core, modelled in Dafny

This project models the core of the `base-ts` Express/TypeScript server template and
proves properties of that model:

- **Token authenticator** (`auth.dfy`, module `Auth`): the `RedisAuth` class keeps REFRESH
  and ACCESS token records as hashes in an expiring key-value store, under keys
  `{namespace}:{token}`. The store is a `map` field that the methods update in place.
  Each entry records its hash and the instant its TTL evicts it. The store invariant says
  a record's TTL fires exactly one second after its embedded `expired`, and every mutating
  method keeps that invariant.
- **Route registry and dispatcher** (`api.dfy`, module `Api`):
  - `APIInfo` endpoint records with mutable argument lists and middleware chains;
  - the per-group endpoint list that `defineAPI` appends to and `updateAPIInfo` edits;
  - the handler `registerAPI` installs. It runs the middleware loop, extracts the
    arguments, calls the handler, and treats the `NEXT` sentinel and other errors
    differently. It is a `while` loop proved against a functional specification of
    one dispatch.
- **Decorators** (`decors.dfy`, module `Decors`): `ValidBody`, `Args`, `BodyArgs` as updaters,
  and the `ArgParsers.UniqIntArrs` extractor (split, parse, drop failures, `_.uniq`).
- **Server set-up** (`app.dfy`, module `App`): the CORS handler, which sets five headers and
  short-circuits `OPTIONS` with an empty 204, and the terminal catch-all route (403
  when a principal is present, 404 otherwise).
- **Migrations** (`migration.dfy`, module `Migration`): the `isImportable` file test, the
  default migrator name, the stable sort by `index`, the autorun loop of `autoMigrate`, and
  `runMigrate` by name.
- `js_values.dfy` (module `JsValues`) holds the JavaScript values the requests are made of,
  plus the built-in string operations the core uses (`split`, `join`, `toUpperCase`) and
  lodash `_.get`.

External effects become parameters:

- **Clock.** Wall-clock time is a `now` argument in milliseconds (`nat`).
- **Fresh tokens.** The value `randomstring.generate` would draw is an argument.
- **Modules.** `require` of a migrator file is a function from file name to what the import yields.
- **Validation and parsing.** The schema validator and `hera.parseInt` are function arguments.
- **Migrations.** A `migrate` call is recorded in a log (`ran`) rather than performed.

Two behaviours of the code are easy to miss; the model follows the code:

- **`genTokens` can return a null access token.** It chains `genAccessToken`, and that
  call yields `null` if the refresh record has expired by the time it is read again.
  The clock is read separately for each call. `GenTokens` therefore takes two clock
  readings and states exactly when the access token is absent.
- **`renewToken` is not atomic.** It issues its `hset` and `expire` as two separate
  commands under `Promise.all`. They are modelled as two successive writes.

## Model

| member | source | states |
|---|---|---|
| JsValues.SplitJoin | utils/express-router/decors.ts:27 | joining the pieces of `s.split(sep)` with `sep` gives `s` back, for every separator including the empty one |
| JsValues.SplitPiecesFree | utils/express-router/decors.ts:27 | no piece of a split on a non-empty separator contains the separator |
| JsValues.IndexOfFrom | utils/express-router/decors.ts:27 | `indexOf` finds the first occurrence at or after `from`, or reports that there is none |
| JsValues.ToUpperCase | app.ts:51 | same length; every character is its upper-case letter (ASCII) or kept |
| Auth.KeyInjective | utils/auth.ts:60 | two tokens of one namespace share a key exactly when they are equal |
| Auth.WriteIsolated | utils/auth.ts:60-61 | writing one token's key leaves the record (or absence) of every other token of the namespace unchanged |
| Auth.DeleteIsolated | utils/auth.ts:90 | deleting one token's key leaves every other token's record unchanged |
| Auth.WritePreservesInv | utils/auth.ts:60-61 | a write whose TTL fires one second after its expiry keeps that true of the whole namespace |
| Auth.NewEntryBacksExpiry | utils/auth.ts:59-61 | a new record's TTL (`1 + lifetime` seconds) outlasts its embedded expiry by exactly one second, and the record is unexpired when written |
| Auth.AcceptedNotEvicted | utils/auth.ts:59-61 | under the store invariant a record the embedded-expiry check accepts has a TTL firing strictly after `now`, so eviction never removes a token a read would accept |
| Auth.RedisAuth.constructor | utils/auth.ts:38-42 | namespace, store and both lifetimes are the given ones |
| Auth.RedisAuth.GenRefreshToken | utils/auth.ts:57-63 | returns the drawn token; the store gains exactly a REFRESH record with the user's id and scope, `expired = now + 1000*refreshTokenExpires` and a TTL of `1 + refreshTokenExpires` s; other tokens untouched; the store invariant is kept |
| Auth.RedisAuth.GenAccessToken | utils/auth.ts:65-76 | if the refresh record exists, has type REFRESH and `expired >= now`: returns the token and adds exactly an ACCESS record with the refresh record's id and scope, `expired = now + 1000*accessTokenExpires`, TTL `1 + accessTokenExpires` s; otherwise returns null and the store is unchanged; other tokens untouched; invariant kept |
| Auth.RedisAuth.RenewToken | utils/auth.ts:78-87 | on a present, unexpired ACCESS record only `expired` becomes `now + 1000*accessTokenExpires` and the TTL is re-armed to `1 + accessTokenExpires` s; on anything else the store is unchanged; invariant kept |
| Auth.RedisAuth.RevokeToken | utils/auth.ts:89-91 | the key is removed and nothing else changes; revoking an absent token changes nothing (idempotent) |
| Auth.RedisAuth.ParseToken | utils/auth.ts:93-100 | succeeds exactly when the record exists with `expired >= now` (either type), then returns the stored record; otherwise fails with `Invalid token` |
| Auth.RedisAuth.GenTokens | utils/auth.ts:44-55 | returns the refresh token, `bearer` and `expires_in = accessTokenExpires`; the access token is present exactly when the refresh record is still live at the second clock reading; the store is exactly the two new records; the access record parses to the user's id and scope |
| Auth.RevokeThenParse | utils/auth.ts:89-100 | after `revokeToken(t)`, `parseToken(t)` fails with `Invalid token` at any time |
| Auth.GenTokensThenParse | utils/auth.ts:44-55 | the access token `genTokens` returns parses, until its expiry, to an ACCESS record with the user's id and scope |
| Auth.RenewInvalidIsNoOp | utils/auth.ts:78-87 | renewing a REFRESH, expired or missing token leaves what `parseToken` reports unchanged |
| Api.RouterDefineMethod | utils/express-router/api.ts:33-45 | the router function is `router.use` exactly when the method is none of the seven declared ones |
| Api.DeclaredVerb | utils/express-router/api.ts:33-45 | each method a decorator declares is installed with its own router function |
| Api.ArgExtractors | utils/express-router/api.ts:69-78 | no list gives no extractors; otherwise one per spec in order: a path string reads `_.get(req, path)`, a function is kept, anything else yields `undefined` |
| Api.Evaluate | utils/express-router/api.ts:55 | one value per extractor, in order, each the extractor applied to the request |
| Api.RunChain | utils/express-router/api.ts:51-53 | a completed chain ran every middleware and ends at the request its last middleware returned; a stopped chain ran at least one |
| Api.RunChainSnoc | utils/express-router/api.ts:51-53 | an appended middleware runs only after the chain before it completed, is given the request the previous middleware returned, and its outcome decides where the chain ends |
| Api.DispatchSpec | utils/express-router/api.ts:47-67 | an error event is emitted exactly when the reply is a rethrow, and then exactly one `express_router:error` event carrying that error and the request the middleware chain left; `NEXT` emits nothing; the handler is invoked exactly when every middleware completed |
| Api.ChainSplit | utils/express-router/api.ts:51-53 | running a chain is running a prefix and, only if that completed, the rest from the request it left |
| Api.ChainOkIff | utils/express-router/api.ts:51-53 | the chain completes exactly when every middleware completes on the request its predecessors left |
| Api.FirstStop | utils/express-router/api.ts:51-53 | a chain that does not complete has a first middleware that does not complete, all before it completing |
| Api.FailingMiddlewareStops | utils/express-router/api.ts:50-65 | the first middleware that does not complete stops the request: exactly the middleware up to it ran, the handler is not invoked, later middleware, extractors and handler do not affect the outcome; if it threw `NEXT` the reply passes on with no event, otherwise its error is rethrown as itself with exactly one `express_router:error` event carrying it and the request it was given |
| Api.MiddlewarePassInvokesHandler | utils/express-router/api.ts:51-64 | when all middleware complete, the handler receives the extracted values and its result, `NEXT` or error decides the reply and events |
| Api.UpdateFirstNoMatch | utils/express-router/api.ts:126-131 | with no record of that key the update changes nothing |
| Api.UpdateFirstAt | utils/express-router/api.ts:126-131 | exactly the first record with the key is updated, and the rest are unchanged |
| Api.FindApi | utils/express-router/api.ts:127 | the index of the first record with the key, or none when no record has it |
| Api.ApiInfo.constructor | utils/express-router/api.ts:26-31 | method defaults to GET and path to the empty string when absent or empty; args are `setArgs(opts.args)`; no middleware |
| Api.ApiInfo.SetArgs | utils/express-router/api.ts:69-78 | only the argument list changes, to the extractors of the specs |
| Api.ApiInfo.Apply | utils/express-router/api.ts:128-130 | an updater replaces the argument list or appends one middleware, and changes nothing else |
| Api.ApiInfo.Handle | utils/express-router/api.ts:47-67 | the loop over the middleware, the extraction and the `catch` block compute exactly the dispatch specification |
| Api.ApiGroup.constructor | utils/express-router/api.ts:118 | a group starts with no endpoints |
| Api.ApiGroup.Define | utils/express-router/api.ts:116-121 | appends one fresh record, the earlier ones unchanged and in order; path defaults to `/` + key |
| Api.ApiGroup.DefineWith | utils/express-router/api.ts:81-86 | the decorator's method overrides the options and selects its own router function |
| Api.ApiGroup.Update | utils/express-router/api.ts:123-134 | the records become `UpdateFirst` of the old ones: only the first record with the key is updated |
| Api.ApiGroup.AddMiddlewareDecor | utils/express-router/api.ts:140-144 | appends the middleware to the first record with the key, if any |
| Api.HelloWorld | routes/auth.ts:4-10 | a group with `GET /` replies `{Hello: 'world'}` and emits no error event |
| Decors.ValidBody | utils/express-router/decors.ts:9-15 | the added middleware passes the request on an accepted body and fails with `Invalid request body!`, 400 and the validator's errors on a rejected one |
| Decors.RejectedBodyStopsHandler | utils/express-router/decors.ts:12-14 | a rejected body stops the request at the validation middleware: the handler is not invoked and exactly one error event with the 400 error is emitted |
| Decors.Args | utils/express-router/decors.ts:18-22 | replaces the argument list with one extractor per spec, as `setArgs` builds them |
| Decors.BodyExtractors | utils/express-router/decors.ts:36-41 | each body extractor is the `setArgs` extractor of the same spec applied to `req.body` |
| Decors.BodyArgs | utils/express-router/decors.ts:34-43 | replaces the argument list: a path reads `_.get(req.body, path)`, a function gets `req.body`, anything else yields `undefined` |
| Decors.ParseAll | utils/express-router/decors.ts:30 | an integer is kept exactly when some item parses to it |
| Decors.ParseAllAppend | utils/express-router/decors.ts:30 | `map(parseInt).filter(!= null)` keeps the items' order and multiplicity: one more item adds its integer, if it parses, at the end |
| Decors.Uniq | utils/express-router/decors.ts:30 | no duplicates, the same values, in the order of their first occurrences |
| Decors.UniqIntArrsOf | utils/express-router/decors.ts:26-30 | a value that is neither array nor string gives `[]`; otherwise the distinct integers the items parse to, without duplicates, in order of first occurrence |
| Decors.UniqIntArrs | utils/express-router/decors.ts:25-31 | the extractor built from `key`, `sep` and the parser always yields an array |
| Decors.UniqIntArrsResult | utils/express-router/decors.ts:25-31 | on any request the extractor yields, as numbers and in the same first-occurrence order, the result of `UniqIntArrsOf` on the value at `key`: distinct, none when that value is neither array nor string, otherwise exactly the integers its items parse to |
| App.CatchAll | app.ts:63-66 | 403 `Permission denied!` exactly when the session has a user or system principal, otherwise 404 `Cannot {method} {url}! API not found` |
| App.UnknownRouteIsNotFound | app.ts:63-66 | `POST /unknown` without a session principal is a 404 with message `Cannot POST /unknown! API not found` |
| App.CorsHeadersSet | app.ts:44-49 | the five CORS headers are set to their values and every other header keeps its value |
| App.PreflightIgnoresCase | app.ts:51 | a method is a preflight exactly when it spells OPTIONS in any mix of letter case |
| App.HttpResponse.Header | app.ts:44 | sets one header and changes nothing else |
| App.Cors | app.ts:43-58 | the five headers are set; a preflight answers 204 with an empty body and does not call `next`; any other request calls `next` once and leaves status and body alone |
| Migration.Last | models/migration/index.ts:35-36 | `slice(-n)`: the last `n` characters, or the whole string when it is shorter or `n` is 0 |
| Migration.ImportableIff | models/migration/index.ts:34-37 | importable exactly when the name ends in `.js`, or in `.ts` but not `.d.ts`; an importable name has at least three characters |
| Migration.LoadMigrator | models/migration/index.ts:33-57 | null for an empty or non-importable name, a throwing import, a non-class export or a non-migrator; otherwise the migrator, a missing name replaced by the file name minus its last three characters |
| Migration.DefaultName | models/migration/index.ts:48-50 | a nameless migrator from `001-init.ts` is called `001-init` |
| Migration.Loaded | models/migration/index.ts:17 | the loaded migrators are exactly those some file's load yields |
| Migration.PresentAppend | models/migration/index.ts:17 | `filter(m => m != null)` keeps order and multiplicity: one more value adds itself, if present, at the end |
| Migration.LoadedAppend | models/migration/index.ts:17 | loading keeps the directory order: one more file adds its migrator, if it loads, at the end |
| Migration.SortByIndex | models/migration/index.ts:17 | the sort is a permutation |
| Migration.SortSorted | models/migration/index.ts:17 | the sort is ascending by index |
| Migration.SortStable | models/migration/index.ts:17 | the sort is stable: the migrators of each index keep their original order |
| Migration.AutorunsMembers | models/migration/index.ts:19-23 | the selected migrators are exactly those with `autorun` set |
| Migration.AutorunsSorted | models/migration/index.ts:19-23 | selecting the autorun migrators of a sorted list keeps it sorted |
| Migration.FindByName | models/migration/index.ts:27 | the first stored migrator with that name, or none exactly when no name matches |
| Migration.Migrations.constructor | models/migration/index.ts:13 | no stored migrators, nothing run |
| Migration.Migrations.AutoMigrate | models/migration/index.ts:15-24 | stores the loaded migrators sorted stably by index, then runs exactly the autorun ones in that order |
| Migration.Migrations.RunAutoruns | models/migration/index.ts:19-23 | the loop runs each stored autorun migrator once, in order, and leaves the stored list alone |
| Migration.Migrations.RunMigrate | models/migration/index.ts:26-31 | runs the first stored migrator with the name; with no match nothing is run |
| Migration.StartupRuns | models/migration/index.ts:17-23 | the migrations run at start-up are exactly the loaded autorun migrators, in ascending index order |

## Left out

- The Redis transport and `ioredis` are not modelled. Store commands are map updates, and store failures (unreachable store) are not modelled.
- The TTL eviction timer is not modelled. The model records the instant eviction would happen but never evicts, so reads are decided by the embedded `expired` field alone.
- The `Promise.all` in `renewToken` is not modelled as concurrent. Its two writes are sequential, and concurrent requests racing on one token are out of scope.
- The source reads `new Date()` separately in the test and in the new expiry of `genAccessToken` and `renewToken`. The model uses one `now` per call. The unused `now` in `genTokens` is dropped.
- `hgetall` returns every field as a string. The source parses only `expired`, and only inside the validity test; `parseToken` returns the raw hash, so its `id` and `expired` are strings and `id` matches the user's only under `==`. The model stores and returns typed fields: an `expired` that would not parse is `None`, read as `Number.MIN_SAFE_INTEGER`.
- Auth.RedisAuth.GenRefreshToken: lifetimes are non-negative (`nat`); negative lifetimes from configuration are not modelled.
- Fresh tokens are arguments with no freshness condition. A token that collides with an existing key overwrites it, as HMSET does; the randomness that makes collisions unlikely is not modelled.
- Express routing itself is not modelled: path matching, ordering between routes, `router.get` and friends, and `hera.routeAsync`/`routeSync`. `res.send` and JSON serialisation are out of scope too, so a reply is the handler's value.
- `Reflect` metadata and the `setTimeout` deferral in `updateAPIInfo` are not modelled. Updates apply to the group's list directly, after the records exist.
- `API` and `defineAPI` write into the caller's options object (`opts.method = method`, `opts.path = opts.path || '/' + key`). Options are values in the model, so that aliasing is lost: an options object shared by two decorators makes the second endpoint inherit the first one's path in the source, but not in the model.
- `ExpressRouter` (its `index.ts`, `NEXT` and `loadDir`) is not part of this model. `NEXT` is the `Next` outcome.
- The schema validator (Ajv) is an abstract function from body to accepted or rejected-with-errors. The unused `validBody` field and the `log` flag are not modelled.
- `hera.parseInt` is an abstract function from value to optional integer.
- The default argument `sep = ','` of `UniqIntArrs` is the constant `DefaultSep`, which callers pass explicitly.
- Middleware mutate the request object in place. The model passes the request each middleware leaves on to the next.
- Changes a middleware, an extractor or the handler makes to `req` before throwing are not modelled. The source's error event carries that same, possibly changed, object; the model's event carries the request the failing step was given.
- Extractors and handlers are total: an extractor that throws is not modelled.
- `_.get` follows dot-separated paths through object properties only. Bracket syntax is not modelled. Neither is reading an array element by a numeric segment (`_.get({a: [5]}, 'a.0')` is `5` in lodash, `Undefined` here), reading a property of a primitive (`'s.length'` on a string), nor the lookup of a whole path that is itself an own key (`'a.b'`) before splitting. These reach `setArgs`, `BodyArgs` and `UniqIntArrs` through their path lookups.
- JavaScript numbers are integers; floating point is not modelled.
- `toUpperCase` is modelled on ASCII letters only.
- Express's case-insensitive header names are not modelled: headers are an exact-name map.
- The request-logging middleware, `console.log` and the error-channel subscriber that logs (`moment` formatting) are not modelled.
- App.Cors: `res.send()` is modelled by a `sent` flag and an empty body.
- The migration `fs.readdir` listing and `require` are abstracted. The listing is a parameter and `require` is a function parameter.
- What a `migrate` call does is not modelled: it is recorded in the `ran` log. A `migrate` that fails aborts `autoMigrate` in the source, and that is not modelled either.
- A migrator `name` that is `undefined` or empty is the empty string.
- `glob/env.ts`, `glob/conn.ts`, `serv/job/job.ts` and `serv/sess.ts` are I/O and scheduling plumbing and are not part of this model.
