# A Dafny model of the google-youtube-resource backend core

This is a model of the backend's two pieces of logic.

1. **The user-record state machine** of `controllers.js`. The document store is a class, `Controllers.UserStore`. It holds one field, `records`, a map from user id to user record. Each handler is one method, and each method is one atomic step on that map:
   - `getChannel`: the SNAPSHOT_PRESENT / SNAPSHOT_ABSENT decision and the wholesale rebuild.
   - `saveToList` and `removeFromList`: a guarded `$push` and a guarded `$pull`.
   - `getSaved`: the projection of `saved` through `uploads`.
   - `getVideo`: the `is_saved` test and the field it writes.
   - `refreshList`: what the handler actually does.
   - `callbackHandler`: its 406 guard and its upsert.

   Answers from the OAuth service and the video API are inputs to the handlers, as `Fetched` values: the value returned, or the error thrown. The `forEach` loop that fills `uploadsObject` is a `while` loop. It is proved against `UploadsOf` and `KeyOrder`, and the lemmas about those two functions carry the properties.
2. **The request gate** of `routes.js`. `Routes.Decide` is the decision `authenticateToken` takes on the Authorization header. `Routes.AuthenticateToken` is that middleware as a method: it sets fields on request and response objects and counts the calls to `next`. `ROUTES` is the route table, and `Dispatch` shows which handlers sit behind the gate. Verifying the credential (`jwt.verify`) is an oracle `verify: string -> Option<Session>`.

The source's quirks are modelled as written:
- `$push` appends an id that is already saved.
- `getVideo` writes under the key `"uploads" + id` (`controllers.js:163`). For a user id that is not empty and does not start with `.`, such as the digit strings identity ids are, that key is a field beside `uploads`, so `uploads` is never changed.
- A save or remove whose match finds no record writes nothing. It ends in a 500, because the handler destructures the `null` it gets back.
- A header without a space makes `split(' ')[1]` undefined, so the gate answers 401.
- A header ending in a space gives the empty token, and that token is passed to `verify`.

The document schema is not part of this model. Two constants on the store stand for it:
- `channelDefault`: the value `channel` gets on a record that the login upsert creates.
- `strict`: whether the store drops an update path that the schema does not declare, as the `"uploads" + id` path is likely to be.

### Behaviour kept as the code has it

- **An empty channel listing.** `getChannel` reads `items[0].contentDetails` (`controllers.js:95`) before it tests `totalResults` (`controllers.js:96`). So an empty `items` list throws, and the reply is a 500. The reply "This User has no channel" needs a non-empty `items` with `totalResults` 0 (`Scenarios.NoChannelAnswers`).
- **A missed match.** When save or remove finds no record (`controllers.js:228-233`, `255-260`), the handler destructures `null` and answers 500. There is no separate "not in library" reply.
- **Duplicate saves.** `$push` (`controllers.js:232`) appends an id that is already in `saved` (`SaveToList`).
- **`getVideo`'s update key.** The update path is `"uploads" + id` (`controllers.js:163`): the user id appended to `uploads` with no dot, not `uploads.<videoId>`.
- **`saved` may name ids that are not in `uploads`.** A rebuild sets `uploads` wholesale and keeps `saved` (`controllers.js:107-113`), so a saved id can be left naming no upload (`RebuildCanOrphanSaved`). Save and remove do preserve the property.
- **`getSaved` and missing ids.** `keys.map(id => uploads[id])` (`controllers.js:141`) yields `undefined` for a saved id missing from `uploads`, not an error (`Project`).

## Model

| member | source | states |
|---|---|---|
| `Controllers.UserStore.CallbackHandler` | controllers.js:23-67 | A truthy `error` in the query gives 406 and no write. A failed exchange gives 500 with its message and no write. Otherwise the record under the subject id is upserted: only `id`, `profile`, `name` and `access` are set, and a new record takes the schema defaults. The reply carries that record's field |
| `Controllers.UserStore.GetChannel` | controllers.js:70-133 | No record or a null channel gives 500 and no write. SNAPSHOT_PRESENT returns the stored channel, uploads and saved, with no write. SNAPSHOT_ABSENT gives: 500 if the listing throws or has no items; "This User has no channel" if `totalResults` is 0; 500 if the playlist call throws. Otherwise exactly o |
| `Controllers.BuildUploads` | controllers.js:103-106 | The `forEach` loop yields exactly `UploadsOf(items)`, and the insertion order of its keys is `KeyOrder(items)`. |
| `Controllers.UploadsKeys` | controllers.js:103-106 | The keys of the uploads map are exactly the set of item ids. |
| `Controllers.UploadsLastWins` | controllers.js:103-106 | Each key maps to the last item that carries that id: no later item has the same id. |
| `Controllers.UploadsSelfKeyed` | controllers.js:105 | Every rebuilt entry is filed under its own id. `GetChannel` uses it to keep the store's invariant that every record's uploads are self-keyed, so on a stored record the save/remove match is plain key membership. |
| `Controllers.KeyOrderCovers` | controllers.js:104-106 | The key order lists exactly the keys of the uploads map. |
| `Controllers.KeyOrderDistinct` | controllers.js:104-106 | The key order lists each key once. |
| `Controllers.Project` | controllers.js:141 | `keys.map(id => uploads[id])` has the same length and order as `keys`. Its i-th element is `uploads[keys[i]]`, or `undefined` when that key is missing. |
| `Controllers.SyncedListing` | controllers.js:118 | The uploads list a rebuild returns has one entry per map key, as many entries as the map has keys. Every entry is present and is the map's value for its own id, and no two entries are equal. |
| `Controllers.ListedOnce` | controllers.js:118 | Projecting distinct keys of a self-keyed map lists each key's entry once, and every entry is listed. |
| `Controllers.UserStore.GetSaved` | controllers.js:135-149 | On a store whose records are keyed by their ids, `findOne({id})` is the record under `uid`. A missing record sends nothing (the empty catch). Otherwise the reply has the length and order of `saved`, and its i-th element is `uploads[saved[i]]`, or absent. It writes nothing. |
| `Controllers.UserStore.GetVideo` | controllers.js:151-181 | A failed provider call or a missing record gives 500 and no write. Otherwise `is_saved` holds exactly when `videoId` is in `saved`. The only write is the key `"uploads" + uid`, filed beside `uploads`, which a strict schema drops. `uploads` and `saved` of every record are unchanged (see Left out for user ids that are empty or start with `.`). |
| `Controllers.UserStore.RefreshList` | controllers.js:183-222 | The handler never responds. Having no `modifies` clause, it writes nothing. |
| `Controllers.UserStore.SaveToList` | controllers.js:224-249 | When the guard `uploads[videoId].id == videoId` holds, the new `saved` is the old one with `videoId` appended, even if already present, so the length grows by exactly 1. No other field or record changes, and the reply is the new list with `uploads[videoId]`. A guard miss gives 500 and no write. The property "saved ids are uploads keys" is preserved. |
| `Controllers.UserStore.RemoveFromList` | controllers.js:251-276 | Under the same guard, the new `saved` is `Pull(old saved, videoId)`. Removing an absent id leaves the store unchanged, and a `getSaved` afterwards lists no entry of the removed video. A guard miss gives 500 and no write. The property "saved ids are uploads keys" is preserved. |
| `Controllers.Pull` | controllers.js:259 | `$pull` leaves exactly the elements that differ from `v`. |
| `Controllers.PullCounts` | controllers.js:259 | `$pull` removes every copy of `v` and keeps every other id as many times as it occurred. The length drops by the number of copies of `v`. |
| `Controllers.PullKeepsOrder` | controllers.js:259 | The result of `$pull` is the input read at strictly increasing positions, and every position not holding `v` is read. So the other elements keep their original order. |
| `Controllers.PullAbsent` | controllers.js:259 | Pulling an id that is not in the list returns the list unchanged. |
| `Controllers.PullAppend` | controllers.js:259 | `$pull` distributes over concatenation. |
| `Controllers.SaveThenRemove` | controllers.js:232 | A remove after a save takes out every copy of the id. If the id was not saved before, the list returns to what it was before the save. |
| `Controllers.RemovedNotListed` | controllers.js:141 | On self-keyed uploads, `getSaved` after a remove lists no entry for the removed id. `RemoveFromList` applies it to the store's record, whose uploads the store keeps self-keyed. |
| `Controllers.SaveThenListed` | controllers.js:141 | After a save of an uploaded id, `getSaved` lists what it listed before, followed by that upload. |
| `Controllers.RebuildCanOrphanSaved` | controllers.js:107-113 | There is a record whose saved ids are all uploads keys, but after a rebuild they no longer are. So the rebuild does not preserve that property. |
| `Routes.Split` | routes.js:13 | `split(' ')` gives at least one field. No field contains a space, and joining the fields with single spaces gives back the header. |
| `Routes.SplitNoSpace` | routes.js:13 | A header without spaces splits into itself alone. |
| `Routes.SplitAtFirstSpace` | routes.js:13 | The first space ends the first field, and the rest splits independently. |
| `Routes.SplitJoin` | routes.js:13 | Splitting undoes joining, for fields that contain no space. |
| `Routes.Token` | routes.js:13-14 | `split(' ')[1]` is undefined exactly when the header has no space. |
| `Routes.TokenAfterScheme` | routes.js:13 | Whatever the first word (it is never checked), the token is the text after the first space, up to the next space or the end. |
| `Routes.TokenIsSecondField` | routes.js:13 | Whatever the scheme word, a header `scheme token` (no other spaces) gives exactly `token`: the scheme is never checked. |
| `Routes.TokenIgnoresLaterFields` | routes.js:13 | Fields after the second one play no part: `scheme token more` still gives `token`. |
| `Routes.TrailingSpaceToken` | routes.js:13-14 | A header ending in its only space gives the token `""`. That token is not `null`, so it reaches `verify`. |
| `Routes.Decide` | routes.js:10-20 | Status 403 set but not sent: exactly when the header is missing or empty. 401 sent: exactly when a header is present and has no space. 403 sent: exactly when the token fails verification. Pass: exactly when it verifies, and the request then carries what `verify` decoded. |
| `Routes.AuthenticateToken` | routes.js:10-20 | On a pass, `req.user` becomes the decoded claims, `next` is called exactly once, and the response is untouched. On a halt, `req.user` and `next` are untouched, and the response gets the decided status, sent or not. |
| `Routes.FindRoute` | routes.js:22-29 | A route that is found is registered and matches the verb and path. When none is found, no registered route matches. |
| `Routes.FindsFirstMatch` | routes.js:22-29 | The route found is the first registered route that matches. |
| `Routes.OnlyLoginRoutesUngated` | routes.js:22-29 | Of the eight routes, exactly the two login routes skip `authenticateToken`. |
| `Routes.GatedHandlersRunAfterGate` | routes.js:22-29 | Any handler other than the two login handlers runs only after the gate passed, and only with the claims the gate decoded. The login handlers run without claims. |
| `Routes.WithoutHeaderOnlyLoginRuns` | routes.js:12 | Without an Authorization header, every request either finds no route, stops with status 403 set and nothing sent, or runs a login handler. |
| `Routes.LoginPathsArePublic` | routes.js:22-23 | `/login-link` and `/login-callback` reach their handlers whatever the header. |
| `Routes.LoginLinkPath` | routes.js:22 | `GET /login-link` finds the first route, the ungated login-link route. |
| `Routes.LoginCallbackPath` | routes.js:23 | `GET /login-callback` finds the second route, the ungated login-callback route: the first does not match it. |
| `Routes.GuardedPathsFindTheirRoutes` | routes.js:24-29 | `/channel`, `/saved`, `/video/:videoId` (any non-empty id), `/refresh-list`, `/save` and `/remove` each find their own route, routes 2 to 7 of the table; `OnlyLoginRoutesUngated` shows those are gated. |

`Scenarios.Lifecycle` and `Scenarios.NoChannelAnswers` are clients written against these contracts. They show that the contracts are strong enough to replay a login, a first sync, a cached read, a save, a remove and a save of an unknown video.

## Left out

- `getLoginLink`, the code exchange, the identity check and `initOauth`: these are calls into the OAuth library (`controllers.js:9-21`, `34-39`, `278-284`). The exchange appears only as a `Fetched<Login>` input.
- The YouTube API calls (`channels.list`, `playlistItems.list`, `videos.list`): their answers are inputs. `maxResults` and `videoCount` are request parameters that nothing in the model reads.
- `jwt.sign` and `jwt.verify`: the signed credential is not built. The callback's reply carries the payload that would be signed. Verification is the `verify` oracle. `routes.js` never imports `jsonwebtoken`, so as written line 15 would throw a ReferenceError. The model assumes a working `verify`.
- `RefreshList`: the rebuild inside its `if` is never reached, so it has no model. The `findOne` at line 186 is not awaited, and line 196 reads the later-declared `channel` before its declaration.
- Concurrency: each `findOne`/`findOneAndUpdate` is one atomic map update, and interleavings of concurrent requests are not modelled.
- The document schema: `channelDefault` and `strict` stand for it.
- MongoDB dotted paths: a `videoId` containing `.` would make the guard path `uploads.<videoId>.id` descend further into `uploads`. The model uses the id as one key.
- The order of `Object.keys`: integer-like keys, which JavaScript lists first in ascending order, are not modelled. The key order is the order of first insertion.
- Express routing details: case-insensitive matching, a tolerated trailing slash, splitting the URL into segments, and the 404 fallback. A path is given as its segments and matched exactly.
- Text of error messages: apart from the callback's failed exchange, whose 500 reply carries the exchange's message (`LoginFailed`), the 500 replies of the controllers carry no message in the model. Logging is left out.
- JavaScript values of unexpected types: a non-string `videoId`, or a query value that is an array. `totalResults` is an integer, so a missing value is treated as 0, which is falsy in the source too.
- The contents of provider resources beyond their `id`: these are carried as an opaque `detail`.
- Controllers.UserStore.GetVideo: the user id is taken to be non-empty and not to start with `.`, as the identity ids the callback stores are. For `""` the update path `"uploads" + id` would be `uploads` itself and `$set` would replace the whole uploads map with the video. For an id starting with `.` it would write an entry inside `uploads`. The model always files the write beside `uploads`.
- Controllers.UserStore.CallbackHandler: a successful exchange is an input (`Fetched<Login>`). As written, `const { token } = await oauth2Client.getToken(code)` (`controllers.js:34`) destructures a `token` field, while the OAuth library resolves `getToken` to an object with `tokens` and `res`. If so, `token.id_token` at line 36 throws, and every callback with a `code` ends in 500 with no upsert. The model does not decide this, because the library is not part of it.
