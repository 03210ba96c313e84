# Event site server: chat, history and store-backed routes, in Dafny

This project models `server.js` of a small event-discovery site. The server has
three parts:

- **Chat over socket.io.** The server admits a connection only when its session
  carries a user. That user is bound to the connection once, when it connects.
  An empty message is ignored. Any other message is cut to its first 2000
  characters and stamped with the clock. It is then broadcast to every client
  (`io.emit`) and afterwards inserted into the `messages` collection.
- **GET /history.** It sorts `messages` by date, most recent first, keeps 100
  and reverses them, so the result is oldest first.
- **HTTP routes over MongoDB.** The routes sit behind the `auth`, `validateId`
  and `validateEvent` middlewares. They register and log in users, edit a
  profile, list, create, patch and delete events, and add and remove
  favorites.

Modules, one per part of the program:

- `Wrappers` (wrappers.dfy): `Option` and a `Result` that carries an HTTP
  status.
- `Requests` (requests.dfy): everything decided from the request alone. This
  covers the three middlewares and the order a route runs them in, the checks
  of GET /events with the filter and sort documents built from its
  parameters, and the `$set` payloads of the two PATCH routes. A query or body
  field is an `Option<string>`. It counts as supplied when it is JavaScript
  truthy, meaning present and not empty. Four checks are not interpreted:
  "is a number" (`!isNaN`), "is a date" (`!isNaN(Date.parse)`),
  `ObjectId.isValid` and `new ObjectId`. They are the fields of an `Oracles`
  value, which the model passes around.
- `History` (history.dfy): the message record `{ username, message, date }`
  and the history snapshot. The sort is an insertion sort by date, most
  recent first.
- `Routes` (routes.dfy): the express session is a `Session` object. The four
  collections are fields of a `Store` object: `users` keyed by username,
  `events` keyed by ObjectId, and `favorites` and `messages` as sequences.
  Each route handler is a method that runs as one atomic step. It returns the
  HTTP status and states the new contents of every collection. `Store.Valid()`
  says that no favorite is stored twice and that messages are stored in the
  order they were stamped. Every handler keeps it.
- `Chat` (chat.dfy): `Io` records every payload broadcast, in order.
  `Socket` carries the connection's session, the user bound at connection,
  and whether it was disconnected.

The server keeps no registry of connections. The "connection" and
"disconnect" TODOs in the source are empty, so the model has no registry
either. The message handler checks only for an empty message, not for one
made only of whitespace. The model follows that code.

Favorites store the `:id` path parameter exactly as the client wrote it,
while events are looked up through `new ObjectId(id)`. If two spellings of an
id are both valid and name the same event, each spelling gets its own
favorite. The model keeps this: `Oracles.toObjectId` is left abstract, and a
favorite is identified by the username and the raw id.

## Model

| member | source | states |
|---|---|---|
| `Requests.RunMiddlewares` | server.js:342 | The route passes when every middleware calls `next()`. Otherwise the answer is that of the first middleware that responds, and all before it passed. |
| `Requests.Auth` | server.js:32-38 | The request goes on exactly when the session's user is present and not empty; otherwise 401. |
| `Requests.ValidateId` | server.js:41-49 | The request goes on exactly when the id is a valid ObjectId; otherwise 400. |
| `Requests.ValidateEvent` | server.js:52-71 | The request goes on exactly when a supplied theme is one of sport, culture, festif, pro, autres, a supplied price is numeric and a supplied date parses; otherwise 400. |
| `Requests.Spread` | server.js:184 | `...(v && { key: v })` keeps the key exactly when the value is truthy, and keeps it with that value. |
| `Requests.EventPayload` | server.js:357-363 | The `$set` payload has a field exactly when the body's field is truthy, with the body's value. |
| `Requests.EventSet` | server.js:365 | After `$set`, each field is the payload's value when the payload has it and the stored value otherwise. |
| `Requests.ProfilePayload` | server.js:183-188 | The profile `$set` payload has a field exactly when the body's field is truthy, with the body's value. |
| `Requests.ProfileSet` | server.js:190 | After `$set`, each profile field is the payload's value when the payload has it and the stored value otherwise. |
| `Requests.PriceBoundsByOp` | server.js:250-255 | The spread price object has `$lte`, `$lt`, `$gte` or `$gt` exactly when lePrice, ltPrice, gePrice or gtPrice is supplied, with that parameter's text. |
| `Requests.DateBoundsByOp` | server.js:257-260 | The spread date object has `$lte` exactly when beforeDate is supplied and `$gte` exactly when afterDate is, with that parameter's text, and no other key. |
| `Requests.PriceFilter` | server.js:250-264 | `price` is in the query exactly when at least one price bound is supplied, and then it has one key per supplied bound and no other. |
| `Requests.DateFilter` | server.js:257-266 | `date` is in the query exactly when beforeDate or afterDate is supplied; it then has `$lte` for beforeDate and `$gte` for afterDate, and nothing else. |
| `Requests.EventsFilter` | server.js:262-267 | `title` is a case-insensitive regex of `name` exactly when `name` is supplied, and `theme` is present exactly when supplied. `price` and `date` are the two filters above. |
| `Requests.Direction` | server.js:270-271 | A sort direction is 1 or -1, and it is 1 exactly for "ascendent". |
| `Requests.SortKeysCover` | server.js:269-272 | Every supplied sort parameter has its key in the sort document. |
| `Requests.EventsOptions` | server.js:269-276 | `sort` is in the options exactly when sortPrice or sortDate is supplied. It has a key per supplied parameter with that parameter's direction, and price comes before date. |
| `Requests.ParamsValidByField` | server.js:214-248 | The order-independent acceptance condition of GET /events is the conjunction of the nine checks, one parameter at a time. |
| `Requests.EventsRequest` | server.js:200-276 | GET /events answers 400 exactly when a supplied price bound is not numeric, a theme is outside the list, a date bound does not parse or a sort is neither ascendent nor descendent. Otherwise it issues `find` with the filter and options above. |
| `Requests.AcceptedSortDirections` | server.js:242-271 | A request that passes every check is accepted, and each of its sort keys is 1 for "ascendent" or -1 for "descendent", with no other case. |
| `History.InsertDescending` | server.js:457 | Inserting into the sorted list adds exactly the one message, and the length grows by one. |
| `History.SortByDateDescending` | server.js:457 | The sort is a permutation of the log. |
| `History.Limit` | server.js:457 | `limit: 100` keeps the first min(100, n) entries. |
| `History.Reverse` | server.js:459 | `reverse()` keeps the length. |
| `History.Snapshot` | server.js:456-459 | The history has min(100, n) entries and never more than 100. |
| `History.ReverseAt` | server.js:459 | Entry i of the reversed list is entry n-1-i of the original. |
| `History.ReverseFront` | server.js:459 | Reversing puts the first entry last. |
| `History.ReverseOfDescending` | server.js:459 | Reversing a most-recent-first list gives an oldest-first one. |
| `History.ReverseMultiset` | server.js:459 | Reversing keeps the same messages. |
| `History.InsertKeepsDescending` | server.js:457 | Inserting keeps the list sorted most recent first. |
| `History.SortIsDescending` | server.js:457 | `sort: { date: -1 }` orders any log most recent first. |
| `History.InsertOldest` | server.js:457 | A message older than all sorted ones goes to the end. |
| `History.SortOfChronological` | server.js:457 | For a log stamped in increasing order, the sort is the reversed log. |
| `History.SnapshotOrdered` | server.js:456-459 | For any log, the history is oldest first (non-decreasing dates) and holds only logged messages. |
| `History.RecentOfReversed` | server.js:457-459 | Limiting the reversed log to 100 and reversing back gives the last min(100, n) entries in their original order. |
| `History.SnapshotIsRecentTail` | server.js:456-459 | For a log stamped in increasing order, the history is exactly the last min(100, n) messages, oldest first. |
| `History.SnapshotDropsOldest` | server.js:456-459 | After 101 messages, the history is all of them except the first. |
| `Routes.NewUser` | server.js:115-123 | A registered user has the given password, status "user", and null avatarUrl, firstname, lastname and birthdate. |
| `Routes.DeleteFirst` | server.js:441 | `deleteOne` removes one occurrence of the favorite, if there is one, and every other favorite stays. |
| `Routes.DropFirstUnique` | server.js:438-442 | In a duplicate-free favorites list, the first favorite does not recur, and the rest is duplicate-free. |
| `Routes.PrependUnique` | server.js:413-419 | Adding a pair not yet stored to a duplicate-free list keeps it duplicate-free. |
| `Routes.DeleteFirstExact` | server.js:438-442 | When favorites have no duplicates, removing one leaves none of that pair and still no duplicates. |
| `Routes.FavoritesOf` | server.js:148-151 | The favorites listed for a user are exactly the event ids stored with that user's name. |
| `Routes.FavoritedBy` | server.js:300-303 | The users listed for an event are exactly those who favorited it under that id. |
| `Routes.Session.Logout` | server.js:96-99 | Logging out leaves the session with no user and answers 200. |
| `Routes.Store.constructor` | server.js:15 | The model's chosen starting state: all four collections empty, with the handlers' invariant holding. The source only creates the client here and fixes no initial contents. |
| `Routes.Store.Register` | server.js:101-129 | Answers 409 exactly when the username is taken, and then nothing changes. Otherwise the new user is inserted with the defaults, 201 is answered, and the other collections are unchanged. |
| `Routes.Store.Login` | server.js:73-94 | Answers 200 exactly when a user has that name and password, and the session's user becomes that name. Otherwise it answers 401 and leaves the session unchanged. |
| `Routes.Store.GetDetails` | server.js:131-165 | Answers 401 without a user and 404 for an unknown user. Otherwise it answers 200 with the user, exactly the events they created, and exactly the ids of the events they favorited. |
| `Routes.Store.PatchDetails` | server.js:167-198 | Answers 401, then 400 for an unparseable birthdate, then 404 for an unknown user. Otherwise it answers 200; the truthy body fields replace the profile's and every other field and user is unchanged. |
| `Routes.Store.GetEvent` | server.js:291-316 | Answers 400 for an invalid id and 404 for a missing event. Otherwise it answers 200 with the event and exactly the users who favorited it under that id. |
| `Routes.Store.PostEvent` | server.js:318-340 | The first failing middleware (401 or 400) decides the answer and nothing changes. Otherwise the body is stored under a fresh id as an event of the session user, and 201 is answered. |
| `Routes.Store.PatchEvent` | server.js:342-373 | After the middlewares, the answer is 404 unless the session user created the event. Otherwise it is 200, the truthy body fields replace the event's, and the owner, the other fields and the other events are unchanged. |
| `Routes.Store.DeleteEvent` | server.js:375-397 | After the middlewares, the answer is 404 unless the session user created the event. Otherwise it is 200 and only that event is removed; favorites are untouched. |
| `Routes.Store.AddFavorite` | server.js:399-428 | After the middlewares, the answer is 404 for a missing event and 409 for a pair already stored. Otherwise the pair is appended and 201 is answered. Favorites never hold a pair twice. |
| `Routes.Store.RemoveFavorite` | server.js:430-449 | After the middlewares, the answer is 404 when the pair is not stored. Otherwise it is 200; exactly that pair is removed, and every other favorite stays. |
| `Routes.Store.GetHistory` | server.js:451-463 | Answers 401 without a user. Otherwise it answers 200 with the last min(100, n) stored messages, oldest first. |
| `Routes.Store.InsertMessage` | server.js:498-505 | Storing a message appends it to `messages` and changes no other collection. |
| `Chat.Truncate` | server.js:484-485 | The kept text is a prefix of the message: all of it when it has at most 2000 characters, and exactly its first 2000 otherwise. |
| `Chat.Process` | server.js:477-492 | An empty message yields no payload. Any other yields one payload with the bound user, the clock reading and a text of min(n, 2000) characters that is a prefix of the message, so it is the whole message when short enough and exactly its first 2000 characters otherwise. |
| `Chat.AdmittedUser` | server.js:466-473 | A connection is admitted exactly when it has a session whose user is present and not empty, and it is admitted as that user. |
| `Chat.Io.Emit` | server.js:495 | A broadcast appends the payload to what every client receives. |
| `Chat.Socket.OnConnection` | server.js:465-473 | A connection without a session, or whose session has no user, is disconnected and gets no listener. Otherwise the session's user is bound to it. |
| `Chat.Socket.OnMessage` | server.js:477-506 | An empty message changes nothing. Otherwise one payload with the bound user is appended to the broadcast outbox and to `messages`, and nothing else changes. |
| `Chat.HistoryEndsWithLatest` | server.js:456-459 | Once a message is stored, the log stays in stamp order and the history ends with that message. |

## Left out

- Transport and plumbing are not modelled. This covers Express routing, the
  `express-session` middleware, the bridge that gives sockets the session
  (server.js:17-29), static files, and `server.listen`. Each route is a method
  that receives its session.
- socket.io delivery is not modelled: `io.emit` only appends to `Io.outbox`.
  Nothing models which clients are connected or whether delivery fails.
- The "connection" TODO and the empty "disconnect" listener (server.js:475,
  server.js:508-510) do nothing, so the model has nothing for them.
- The `client.connect()` and `client.close()` around each handler are not
  modelled, and neither are the projections of `find` and `findOne`.
- How MongoDB evaluates the GET /events filter is not modelled.
  `Requests.EventsRequest` returns the `find` request that is issued, not the
  events it finds.
- Number and date parsing are not interpreted. `parseFloat`, `isNaN`,
  `Date.parse`, `new Date(...)`, `ObjectId.isValid` and `new ObjectId` are
  the abstract `Oracles`. A price or date bound holds the parameter text that
  would be converted.
- The message clock is an integer argument. Each new stamp must be later than
  every stored one, which models a clock that does not go back.
- Two messages stamped in the same millisecond are not modelled. MongoDB
  leaves their order in the sort unspecified.
- `History.SnapshotOrdered`: for a log whose dates are not strictly
  increasing, it states only the order, the length and that the history holds
  logged messages. Which equal-dated messages survive the limit depends on
  MongoDB's order for ties.
- Concurrency is not modelled. Each handler is one atomic step, so parallel
  sockets and the check-then-insert races of register and favorite
  (server.js:108-115, server.js:411-416) are not captured.
- A failing `insertOne` after a broadcast (server.js:498-505) is not
  modelled; storage always succeeds.
- Store operations in the HTTP routes always succeed in the model. That
  includes an `updateOne` with an empty `$set`, which PATCH /details and
  PATCH /event/:id send when no body field is truthy (server.js:190,
  server.js:365). `Routes.Store.PatchDetails` and `Routes.Store.PatchEvent`
  then answer 200 and change nothing. A MongoDB server that rejects an empty
  `$set` would make the handler's `try`/`finally` (no `catch`) leave the
  request unanswered with an unhandled rejection; that path depends on the
  server version and is not modelled.
- Non-string inputs are not modelled. This covers a message that is not a
  string, query parameters given as arrays, numeric body fields (where the
  number 0 is falsy), and JSON object body fields. Object fields reach the
  queries as operators: a `password` of `{"$ne": null}` passes into
  `findOne({ username, password })` (server.js:80-83) and logs in without the
  password, and an object `username` does the same to Register's
  `findOne({ username })` (server.js:108-110). `Routes.Store.Login` and
  `Routes.Store.Register` state their results only for string fields.
- Missing `username` or `password` fields in the login and register bodies
  are not modelled.
- Message length is counted in Dafny characters, not in UTF-16 code units.
- `users` is a map keyed by username. Register inserts only when the name is
  absent, so no two user documents share a name.
- The fresh `_id` MongoDB gives a new event is an argument of `PostEvent`.
  It must not be in use yet.
- public/user.js is browser UI (DOM rendering, `fetch`, `alert`) and is not
  part of this model.
