# Home-services dispatch backend, modelled in Dafny

This project models the server side of a nearby-home-services marketplace. A
customer posts a service request. The server matches it to the nearest eligible
providers, stores that notified set as a snapshot, and offers the request to
each of them over a socket room. The first APPROVED provider to accept wins in
one conditional update, and every other notified provider gets the offer
revoked. The assigned job then moves through the status lifecycle to payment
confirmation. One status, ARRIVED, arms a deferred move to WORK_STARTED.

Around that core the model covers:
- the provider availability switch and its approval gate;
- the public nearby-providers query and the provider's open-requests pull;
- the admin approve, reject and deactivate routes and the admin request list;
- the `auth(requiredRoles)` middleware;
- the socket handshake, room joins and location relay;
- registration (validation, the 24-hour re-registration window, category parsing, profile construction) and login;
- the client's derivation of the uploads base URL.

How the model is built:
- Every route is a pure function from a `Store` (users, provider profiles and
  requests, each a sequence in insertion order) to a `Reply`. A `Reply` holds
  the store afterwards, the socket events emitted (room and payload), and
  either the response value or an `HttpError`.
- Lookups return the first matching document, as `findOne`/`findById` do.
- Collaborators the server only calls are parameters:
  - token verification (`Verifier`);
  - geographic distance (`Distance`, whole meters);
  - the clock;
  - fresh document ids;
  - password hashing and comparison;
  - e-mail syntax;
  - JavaScript's `Number` on query strings.
- `$near` with `$maxDistance` and `.limit(n)` is `Seqs.Select`: filter, then a
  stable sort by distance (or by `-createdAt`), then the first `n`.

Modules, one per file:
- `wrappers.dfy`: `Option` and `Result`.
- `seqs.dfy`: lookup, filter, stable sort and limited selection.
- `strings.dfy`: `startsWith`, `split`, `join`, `trim` and suffix tests.
- `models.dfy`: the records and their enumerations.
- `bus.dfy`: room names and event payloads.
- `db.dfy`: the store, lookups and replies.
- `matching.dfy`: the three geo queries.
- `requests.dfy`: the request routes.
- `provider_routes.dfy`: the provider routes.
- `admin.dfy`: the admin routes.
- `gate.dfy`: the auth middleware.
- `sockets.dfy`: the socket server.
- `registration.dfy`: registration and login.
- `uploads.dfy`: the uploads base.
- `api.dfy`: role gating plus dispatch for every authenticated route.
- `lifecycle.dfy`: properties of the request routes that span several calls.
- `accounts.dfy`: properties of registration, rejection and login that span several calls.

Some behaviour of the code is weaker than its own comments and messages
suggest. The model follows the code, and each gap is stated as a lemma:
- The status route carries the comment "Basic transition rules"
  (`routes/requests.js:120`), but its only rule is a fixed list of four
  settable statuses. Nothing compares the new status with the current one.
  `Lifecycle.StatusCanRegress` sends a COMPLETED or PAYMENT_CONFIRMED request
  back to ON_THE_WAY. `Lifecycle.StatusCanSkipAhead` moves ACCEPTED straight to
  COMPLETION_REQUESTED.
- The comment "only assigned provider can update after accept"
  (`routes/requests.js:131`) sits over a check that the request has *some*
  assigned provider. Neither the status route nor payment confirmation compares
  that provider with the caller. See `Api.StatusUpdateIgnoresCaller` and
  `Api.PaymentConfirmIgnoresCaller`.
- Accept answers 409 "Request already taken" for a well-formed id that names
  no request, because its conditional update simply finds no document. The
  other id routes answer 404 "... not found" in that case.
- The nearby-providers query has no `isActive` filter, unlike the matching
  done at creation (`Matching.Listed` versus `Matching.Eligible`).
- The availability switch does not look at `isActive`
  (`Lifecycle.DeactivatedCanGoAvailable`).

## Model

| member | source | states |
|---|---|---|
| Seqs.Select | project/server/src/routes/requests.js:27-41 | a `$near`/`$maxDistance` query with `.limit(n)` returns at most n matching documents of the collection, nearest first, and omits a matching one only when the limit is full of documents at least as near |
| Strings.Split | project/server/src/middleware/auth.js:10 | `split` on one character yields one more piece than there are separators, no piece contains the separator, and joining the pieces gives back the input |
| Strings.SplitJoin | project/node_modules/nearby-home-services-server/src/routes/auth.js:90 | splitting the join of separator-free pieces gives back exactly those pieces |
| Strings.Trim | project/node_modules/nearby-home-services-server/src/routes/auth.js:90 | `trim` keeps the contiguous middle of the string and removes only ECMAScript white space from both ends, leaving no white space at either end |
| Models.Coordinates | project/server/src/models/ServiceRequest.js:14-17 | stored coordinates are the two-element array longitude first, and they determine the point |
| Models.Rank | project/server/src/models/ServiceRequest.js:21-30 | each status has its position in the declared eight-value order |
| Models.ParseStatus | project/server/src/models/ServiceRequest.js:19-32 | a status string is accepted exactly when it names one of the eight statuses |
| Models.StatusNamesRoundTrip | project/server/src/models/ServiceRequest.js:21-30 | every status's name parses back to that status, so the eight names are distinct |
| Models.ParseAvailability | project/server/src/models/Provider.js:20-24 | an availability string is accepted exactly when it is AVAILABLE, OFFLINE or BUSY |
| Models.ParseRole | project/node_modules/nearby-home-services-server/src/routes/auth.js:24 | a role string is accepted exactly when it names a role |
| Db.FindUser | project/server/src/middleware/auth.js:13 | `User.findById` finds the first user with that id, or reports that none exists |
| Db.FindUserByEmail | project/node_modules/nearby-home-services-server/src/routes/auth.js:35 | `User.findOne({email})` finds the first user with that e-mail, or reports that none exists |
| Db.FindProfile | project/server/src/routes/admin.js:22 | `Provider.findById` finds the first profile with that id, or reports that none exists |
| Db.FindProfileOf | project/server/src/routes/provider.js:15 | `findOne({userId})` finds the first profile the user owns, or reports that none exists |
| Db.FindRequest | project/server/src/routes/requests.js:116 | `findById` finds the first request with that id, or reports that none exists |
| Bus.ProviderRoomInjective | project/server/src/index.js:54 | two users share a `provider_` room exactly when they are the same user |
| Bus.RequestRoomInjective | project/server/src/index.js:66 | two requests share a `request_` room exactly when they are the same request |
| Bus.RoomKindsDisjoint | project/server/src/index.js:59-67 | no provider room is a request room |
| Matching.NotifySet | project/server/src/routes/requests.js:27-41 | at most five providers are chosen, all of the category, APPROVED, AVAILABLE, active and within 5000 m, nearest first; an eligible provider is left out only when five at least as near were chosen |
| Matching.Nearby | project/server/src/routes/provider.js:41-54 | at most twenty providers of the category, APPROVED, AVAILABLE and within 5000 m, nearest first, with `isActive` not consulted; a listed provider is left out only when twenty at least as near were chosen |
| Matching.OpenRequests | project/server/src/routes/provider.js:88-99 | at most thirty REQUEST_SENT requests in one of the provider's categories within 5000 m of it, newest first; a matching request is left out only when thirty at least as new were chosen |
| Matching.NewestFirst | project/server/src/routes/admin.js:76 | `sort({createdAt: -1})` is a permutation ordered newest first |
| Requests.OfferEvents | project/server/src/routes/requests.js:49-56 | one `request:new` per notified user, in order, each to that user's provider room |
| Requests.TakenEvents | project/server/src/routes/requests.js:99-103 | `request:taken` goes to every notified user except the winner and to no other room |
| Requests.Create | project/server/src/routes/requests.js:10-64 | a missing category, lng or lat gives 400 with no change; otherwise the request is appended REQUEST_SENT and unassigned, with the notified snapshot holding the owners of the nearest eligible providers in order, their count in the response, and one offer per notified user |
| Requests.Accept | project/server/src/routes/requests.js:67-110 | a caller without an APPROVED profile gets 403 and a request that is not open gets 409, both with no change; otherwise exactly that request becomes ACCEPTED and assigned to the caller's profile, the request room is told, and the other notified users get the revocation |
| Requests.SettableStatus | project/server/src/routes/requests.js:121-129 | only ON_THE_WAY, ARRIVED, WORK_STARTED and COMPLETION_REQUESTED pass the allowed-status check |
| Requests.UpdateStatus | project/server/src/routes/requests.js:113-167 | unknown id gives 404, a status outside the four gives 400, an unassigned request gives 400; otherwise only that request's status changes, whatever it was, the update is announced, and ARRIVED arms the timer |
| Requests.FireAutoTransition | project/server/src/routes/requests.js:146-160 | the timer moves the request to WORK_STARTED and announces it exactly when it still exists and is ARRIVED; otherwise nothing changes and nothing is emitted |
| Requests.ConfirmCompletion | project/server/src/routes/requests.js:170-191 | unknown id gives 404, another customer's request gives 403, a status other than COMPLETION_REQUESTED gives 400; otherwise the request becomes COMPLETED and it is announced |
| Requests.PaymentConfirm | project/server/src/routes/requests.js:194-214 | unknown id gives 404, a status other than COMPLETED gives 400; otherwise the request becomes PAYMENT_CONFIRMED and it is announced |
| Requests.CustomerRequests | project/server/src/routes/requests.js:217-228 | the list holds exactly the caller's requests, each as often as stored, newest first |
| Requests.GetRequest | project/server/src/routes/requests.js:231-244 | the request with that id, or 404 exactly when none exists |
| ProviderRoutes.SetAvailability | project/server/src/routes/provider.js:9-32 | an unknown value gives 400, no profile gives 404, a non-APPROVED provider asking for AVAILABLE gives 403 "Provider must be approved before going AVAILABLE" together with the profile's current verification status; otherwise only the availability of the caller's profile changes |
| ProviderRoutes.NearbyProviders | project/server/src/routes/provider.js:35-60 | 400 exactly when lng, lat or category is missing or empty; otherwise exactly the `$near` result around the given point: at most twenty listed providers, nearest first, and a listed provider left out only when twenty at least as near were chosen |
| ProviderRoutes.OpenRequestsFor | project/server/src/routes/provider.js:77-106 | no profile gives 404, not APPROVED gives 403, not AVAILABLE gives an empty list; an APPROVED, AVAILABLE provider gets exactly the open-requests query for its profile, so a matching request is left out only when thirty at least as new were chosen |
| Admin.OrElse | project/server/src/routes/admin.js:27 | `x \|\| fallback` keeps a non-empty value and falls back for a missing or empty one |
| Admin.Approve | project/server/src/routes/admin.js:20-35 | unknown id gives 404 with no change; otherwise, whatever the prior status, only that profile changes: APPROVED, notes or "", verified now |
| Admin.Reject | project/server/src/routes/admin.js:38-53 | unknown id gives 404 with no change; otherwise only that profile changes: REJECTED, reason or "Rejected", verified now |
| Admin.Deactivate | project/server/src/routes/admin.js:56-70 | unknown id gives 404 with no change; otherwise only that profile changes: inactive and OFFLINE, verification status kept |
| Admin.AllRequests | project/server/src/routes/admin.js:73-88 | every request exactly once, newest first |
| Gate.BearerToken | project/server/src/middleware/auth.js:10 | the token is the text after "Bearer " up to the next space |
| Gate.FirstPiece | project/server/src/middleware/auth.js:10 | the first piece of a space split is the text before the first space |
| Gate.Authorize | project/server/src/middleware/auth.js:4-27 | 401 for a missing or non-Bearer header, for a token that fails verification and for an unknown user; 403 "Forbidden" for a stored user whose role is outside a non-empty list; otherwise the user the token names |
| Sockets.Handshake | project/server/src/index.js:32-47 | a connection gets an identity exactly when its token is present, verifies and names a stored user; otherwise it is still accepted, anonymous |
| Sockets.Connect | project/server/src/index.js:49-57 | the only room joined on connect is the user's own provider room, and only for a PROVIDER with a user id |
| Sockets.JoinProvider | project/server/src/index.js:59-63 | `join:provider` adds that provider room and nothing else |
| Sockets.JoinRequest | project/server/src/index.js:65-67 | `join:request` adds that request room and nothing else |
| Sockets.RelayLocation | project/server/src/index.js:69-71 | a location update is re-emitted once to the request room with the same id and coordinates |
| Sockets.OfferReachesOnlyNotified | project/server/src/routes/requests.js:48-56 | a provider connection receives a new-request offer exactly when its user was notified |
| Sockets.RevocationReachesOnlyLosers | project/server/src/routes/requests.js:98-103 | a provider connection receives the revocation exactly when its user was notified and did not win |
| Sockets.JoinProviderUnchecked | project/server/src/index.js:59-63 | any connection that names a user id receives that user's offers, since the join is not checked against the identity |
| Sockets.RequestRoomsIsolated | project/server/src/index.js:65-67 | a connection that joined only request rooms receives no provider-room event |
| Registration.FailedFields | project/node_modules/nearby-home-services-server/src/routes/auth.js:19-30 | a field is reported exactly when it is one of the five validated fields and fails its rule |
| Registration.TrimAll | project/node_modules/nearby-home-services-server/src/routes/auth.js:90 | each piece is trimmed, in order |
| Registration.ParseCategories | project/node_modules/nearby-home-services-server/src/routes/auth.js:87-91 | an array is kept, a string becomes exactly its comma-separated pieces, each trimmed, in order, anything else becomes empty |
| Registration.TrimInfix | project/node_modules/nearby-home-services-server/src/routes/auth.js:90 | trimming adds no characters |
| Registration.TrimClean | project/node_modules/nearby-home-services-server/src/routes/auth.js:90 | a string without white space at its ends is unchanged by trimming |
| Registration.CategoriesRoundTrip | project/node_modules/nearby-home-services-server/src/routes/auth.js:87-91 | clean category names sent as one comma-separated string are parsed back into the same list |
| Registration.Register | project/node_modules/nearby-home-services-server/src/routes/auth.js:12-127 | 400 with the failing fields; 400 for a taken e-mail, with the reapply message when the owner is a provider rejected under 24 hours ago; a provider body that is not multipart gets 500 and a multipart one without both files gets 400, and in both cases the new account stays; a valid customer form with a fresh e-mail and id succeeds and appends exactly that account; a valid multipart provider form with both files and a fresh e-mail succeeds exactly when the schema accepts its profile and the profile id is fresh, otherwise gets 500 with the new account kept, and on success appends the account and a PENDING, OFFLINE, active profile with the parsed categories and `[lng, lat]` |
| Accounts.RejectThenReregister | project/node_modules/nearby-home-services-server/src/routes/auth.js:35-55 | after an admin rejects a provider's profile, registering again with that e-mail less than 24 hours later gives the reapply-later 400 and stores nothing |
| Accounts.RegisterThenLogin | project/node_modules/nearby-home-services-server/src/routes/auth.js:129-165 | an account registration has just created signs in with the password it was registered with |
| Registration.Login | project/node_modules/nearby-home-services-server/src/routes/auth.js:129-165 | success exactly when the e-mail is well formed, the password non-empty, a user has that e-mail and the password matches; an unknown e-mail and a wrong password give the same 400 |
| UploadsBase.ApiBase | project/client/src/lib/api.ts:3 | the configured base, or the default when unset or empty |
| UploadsBase.StripApiSuffix | project/client/src/lib/api.ts:7 | the result is a prefix of the input that drops exactly a trailing `/api/` or `/api`, or nothing when neither ends it |
| UploadsBase.DefaultUploadsBase | project/client/src/lib/api.ts:3-7 | the default API base gives `http://localhost:4000` |
| UploadsBase.TrailingSlashStripped | project/client/src/lib/api.ts:7 | `x/api/` and `x/api` both give `x` |
| UploadsBase.OnlyOneOccurrence | project/client/src/lib/api.ts:7 | `x/api/api` gives `x/api` |
| UploadsBase.ElsewhereUnchanged | project/client/src/lib/api.ts:7 | `/api` not at the end leaves the base unchanged |
| Api.Handle | project/server/src/middleware/auth.js:17-21 | a request the middleware refuses gets the middleware's error with nothing stored or emitted; otherwise the route's handler runs, and its reply is the reply, for the stored user the token names, whose role the route admits |
| Api.RequiredRoles | project/server/src/routes/requests.js:10-231 | the `auth([...])` list of every route: only `GET /requests/:id` admits any signed-in user; creating, confirming completion and listing one's own requests are CUSTOMER routes; the admin decisions and the admin request list are ADMIN routes; accept, status, payment confirmation, availability (`routes/provider.js:9`) and open requests (`routes/provider.js:77`) are PROVIDER routes |
| Api.Dispatch | project/server/src/index.js:93-96 | the mounted route table: a refused request stores and emits nothing, the reads change nothing, the profile routes change only profiles and emit nothing, and the request routes leave users and profiles alone |
| Api.DispatchProfile | project/server/src/routes/admin.js:20-70 | the admin decisions and the availability switch change no user and no request and emit nothing, and a refused one changes nothing |
| Api.WrongRoleForbidden | project/server/src/middleware/auth.js:17-19 | a signed-in user whose role a route does not admit gets 403 and changes nothing |
| Api.StatusUpdateIgnoresCaller | project/server/src/routes/requests.js:113-137 | any two provider users get the same reply from the status route, so the caller need not be the assigned provider |
| Api.PaymentConfirmIgnoresCaller | project/server/src/routes/requests.js:194-203 | any two provider users get the same reply from payment confirmation |
| Lifecycle.CreatePreserves | project/server/src/routes/requests.js:16-46 | creation keeps every existing request and its snapshot, and keeps "assigned exactly when past REQUEST_SENT" |
| Lifecycle.AcceptPreserves | project/server/src/routes/requests.js:74-87 | accept keeps every snapshot, never overwrites an assignment, and keeps "assigned exactly when past REQUEST_SENT" |
| Lifecycle.UpdateStatusPreserves | project/server/src/routes/requests.js:136-137 | a status update keeps every snapshot and assignment and the assignment invariant |
| Lifecycle.FirePreserves | project/server/src/routes/requests.js:148-152 | the timer keeps every snapshot and assignment and the assignment invariant |
| Lifecycle.ConfirmPreserves | project/server/src/routes/requests.js:180-181 | completion confirmation keeps every snapshot and assignment and the assignment invariant |
| Lifecycle.PaymentPreserves | project/server/src/routes/requests.js:203-204 | payment confirmation keeps every snapshot and assignment and the assignment invariant |
| Lifecycle.ProfileRoutesLeaveRequests | project/server/src/routes/admin.js:20-70 | the availability switch and the admin profile routes never change a request |
| Lifecycle.AcceptKeepsLookup | project/server/src/routes/requests.js:74-87 | after an accept, every id still finds the same position in the request collection |
| Lifecycle.AcceptOnlyOnce | project/server/src/routes/requests.js:74-91 | once a request is taken, a later accept by anyone fails with 403 or 409 and changes and emits nothing |
| Lifecycle.Race | project/server/src/routes/requests.js:74-91 | sequential accepts by several callers report winners only among those callers and leave the profiles unchanged |
| Lifecycle.RaceClosed | project/server/src/routes/requests.js:89-91 | accepts on a request that is no longer open change nothing and have no winner |
| Lifecycle.RaceHasOneWinner | project/server/src/routes/requests.js:74-91 | of any sequence of accepts on one request at most one wins; one wins exactly when the request was open and some caller is approved, and the winner is the first approved caller |
| Lifecycle.FireIdempotent | project/server/src/routes/requests.js:148-151 | a second firing of the timer does nothing |
| Lifecycle.ArrivedThenFire | project/server/src/routes/requests.js:144-156 | setting ARRIVED arms the timer, and firing it next moves the request to WORK_STARTED and announces it |
| Lifecycle.StaleTimerHarmless | project/server/src/routes/requests.js:150 | if another status was set before the timer fires, the firing does nothing |
| Lifecycle.StatusCanRegress | project/server/src/routes/requests.js:121-137 | any assigned request, including a COMPLETED or PAYMENT_CONFIRMED one, can be set back to ON_THE_WAY |
| Lifecycle.StatusCanSkipAhead | project/server/src/routes/requests.js:121-137 | an assigned request can jump straight to COMPLETION_REQUESTED |
| Lifecycle.NotifiedAreEligible | project/server/src/routes/requests.js:27-45 | every notified user owns a stored profile of the category, APPROVED, AVAILABLE, active and within 5000 m; at most five are notified; the response reports how many |
| Lifecycle.DeactivatedCanGoAvailable | project/server/src/routes/provider.js:15-26 | a deactivated APPROVED provider can switch itself back to AVAILABLE; it is then still APPROVED, inactive and AVAILABLE with its categories and location unchanged, so it is listed on the map for each of its categories within 5000 m, yet never eligible for new requests |

## Left out

- Geographic distance, the 2dsphere index and floating-point coordinates. Distance is an oracle in whole meters, and ties in `$near` are broken by insertion order.
- `Number(lng)`/`Number(lat)` and NaN. Coordinates arrive already converted to integers, or through the `toNumber` oracle on query strings.
- Real concurrency. Accepts are applied one after another (`Lifecycle.Race`), and each accept is one atomic store transition.
- The two-minute `setTimeout` delay. The timer is a separate step, `Requests.FireAutoTransition`, that can be taken at any later point.
- JWT signing and verification, bcrypt, express-validator's `isEmail` and multer's storage. These are foreign libraries, so they appear as function parameters; the issued token is not modelled.
- `updatedAt`, `populate` and `lean`, console logging, and the 500 responses for infrastructure failures. The one exception is a fresh id that clashes, or a profile the schema refuses during registration; both give 500.
- The socket's own per-connection room and the disconnect handler. Neither affects delivery of the modelled events.
- `GET /admin/providers`, `GET /provider/me` and `GET /api/me`. They read one document or list all of them, with nothing to decide.
- Registration.Register: the password-length rule counts every character, while express-validator's `isLength` does not count the variation selectors U+FE0E and U+FE0F. A `categories` array is stored as given, without Mongoose's casting of non-string elements.
- ProviderRoutes.NearbyProviders: query parameters are modelled as single strings, and so are the JSON body fields of `POST /requests` (`Requests.Create`), the status, availability and admin routes, and registration and login (`Registration.Register`, `Registration.Login`). A JSON array or object sent as such a field (for example `category: ["a"]`) is not modelled; Mongoose casts such a value or, in a query filter, passes it on to MongoDB. In the source a repeated key (`?category=a&category=b`) arrives as an array, and the filter `categories: category` (`routes/provider.js:42`) then matches the whole array rather than one element. Express's extended query parser also turns `category[$ne]=x` into an object that reaches MongoDB as an operator. In both cases the providers listed need not have the requested category.
- Mongoose's id casting. A malformed id makes `findById` or `findOneAndUpdate` throw a CastError, and the route's catch answers 500 "Server error". This happens at `routes/requests.js:74` with its catch at 106-108, at `routes/requests.js:116` with its catch at 163-165, at `routes/admin.js:22` with its catch at 31-33, and on the other id routes. Ids are modelled as opaque strings, so the model answers 404 or 409 for every id that names no document. In the same way, a verified token whose user id is malformed makes the middleware's `findById` throw, and its catch (`middleware/auth.js:22-25`) answers 401 "Invalid token" where `Gate.Authorize` answers 401 "User not found".
- A user lookup that throws during the socket handshake is not modelled separately. The catch branch leaves the connection anonymous, which is what `Sockets.Handshake` does for a failed verification.
- The static `/uploads` route, CORS and the server start-up. These are I/O plumbing.
- `db.js` and all client pages except `api.ts`. They are connection set-up and presentation.
