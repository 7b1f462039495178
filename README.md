# Film organizer backend: router and middleware model

A Dafny model of the decision logic of a small Express backend that keeps
"film rolls" (collections of scanned photographs) in the S3 bucket
`film-files`. A roll has no record of its own: it is the set of objects whose
keys start with `roll/`. The model covers:

- the film-roll router (`src/routes/v1/image.route.js`): deriving roll names
  from the delimited root listing, turning listed keys into public URLs,
  building the delete request for a roll, building object keys `roll/name`,
  the ordered admission checks of the upload route, and the loop that uploads
  the extracted members of an archive and collects their keys;
- the application's own middleware (`src/app.js`): the fixed CORS headers and
  the guest-cookie test, and the identity middleware that resolves
  `req.user` from the `email` cookie and turns away guests' writes with 401.

Storage and file-system calls are not modelled as code: each operation takes
the reply of the call it would make as a parameter (`Result<Listing, string>`
for a listing, `Result<(), string>` for a delete or a file move, a function
from upload parameters to a reply for the member uploads). Module
`ObjectStore` gives listings a meaning over an abstract bucket, an ordered
sequence of keys: a listing keeps the keys that start with its prefix and,
when delimited by '/', rolls keys up into their common prefixes. The lemmas
that connect several routes (a bucket that holds a roll's member keys lists
them and blocks a further upload to that roll; deleting a roll reaches every key of it) are stated
over that bucket.

Modules: `Wrappers` (Option, Result), `Keys` (the first path segment and the
key scheme), `ObjectStore` (listings), `FilmRolls` (the router), `App` (the
middleware; a `Request` and a `Response` class whose fields the middleware
assigns).

Behaviour of the code that the model keeps as written:

- The guest-cookie test `!'email' in req.cookies` parses as
  `(!'email') in req.cookies`, that is `false in req.cookies`: the cookie is
  set only when the parsed cookies hold a key `"false"`, never for a request
  without cookies (`App.GuestCookieNeedsFalseKey`, `App.NoCookieNoGuestCookie`).
- The separate test for an `email` cookie equal to `guest` has no effect of
  its own (`App.ResolvedEmail`).
- Rolls are listed and deleted by their bare name, without a trailing '/',
  so listing or deleting roll `R` also reaches the objects of a roll `R2`
  (`FilmRolls.RollListingUrls`, `FilmRolls.DeletionReachesRollsExtendingName`).
- The upload route's existence test is exact membership in the derived roll
  names, so an existing `roll2` does not block `roll` (`FilmRolls.ExistenceIsExactMatch`).
- A roll name that holds '/' gets past the existence test: the route parameter
  `a%2Fb` decodes to `a/b`, the root listing names only the roll `a` of a stored
  key `a/b/c`, and the upload's keys then land inside that roll
  (`FilmRolls.SlashedRollPassesExistenceTest`).
- Several files sent under the form field `file` arrive as an array, which has
  no media type, so the upload is answered "File must be a zip" even when every
  file is a zip (`FilmRolls.SeveralFilesAreNotAZip`).

## Model

| member | source | states |
|---|---|---|
| Keys.FirstSegment | src/routes/v1/image.route.js:28 | `split('/')[0]`: the result is a prefix of the input, holds no '/', and is followed by a '/' unless it is the whole input |
| Keys.FirstSegmentUnique | src/routes/v1/image.route.js:28 | those three properties determine the first segment: any string that has them is it |
| Keys.ObjectKey | src/routes/v1/image.route.js:158 | the key of a roll's object starts with `roll/` and continues with exactly the object's name |
| Keys.FirstSegmentOfKey | src/routes/v1/image.route.js:27-30 | the first segment of `roll/name` is `roll` when `roll` has no '/' |
| Keys.ObjectKeyInjective | src/routes/v1/image.route.js:228 | for slash-free rolls, equal keys mean equal roll and equal name |
| ObjectStore.ListObjects | src/routes/v1/image.route.js:16-22 | a listing keeps every stored key that starts with the prefix, either as itself (not rolled up) or through its common prefix, and nothing else; undelimited listings have no common prefixes |
| FilmRolls.RootListRequest | src/routes/v1/image.route.js:16-19 | the roll list asks bucket `film-files` with no prefix and the '/' delimiter |
| FilmRolls.RollListRequest | src/routes/v1/image.route.js:43-46 | a roll is listed in bucket `film-files` with its bare name as prefix, undelimited |
| FilmRolls.RollNames | src/routes/v1/image.route.js:27-30 | one roll name per common prefix, in order, each the text of its common prefix before the first '/', so a slash-free prefix of it |
| FilmRolls.RollNamesOfRollPrefixes | src/routes/v1/image.route.js:27-30 | common prefixes `R/` with slash-free `R` give back exactly the names `R`, in order |
| FilmRolls.GetFilmRolls | src/routes/v1/image.route.js:15-35 | a failed listing rejects with the store's error; otherwise it resolves to exactly the roll names of the common prefixes, one slash-free name per prefix |
| FilmRolls.ListFilmRolls | src/routes/v1/image.route.js:36-39 | GET / sends the roll names with 200, or its handler rejects with the listing error |
| FilmRolls.RollOfStoredKeyIsListed | src/routes/v1/image.route.js:15-31 | every slash-free roll that has an object in the bucket is among the derived roll names |
| FilmRolls.ObjectUrl | src/routes/v1/image.route.js:58 | an object's URL is the fixed public prefix followed by exactly its key |
| FilmRolls.KeyOfUrl | src/routes/v1/image.route.js:58 | a URL names a key exactly when it starts with the fixed public prefix, and that key is the rest of the URL |
| FilmRolls.UrlPrefixIsFixed | src/routes/v1/image.route.js:43-58 | the public prefix is `https://film-files.s3.amazonaws.com/` |
| FilmRolls.UrlRoundTrip | src/routes/v1/image.route.js:57-60 | stripping the public prefix from an object's URL gives back its key |
| FilmRolls.ObjectUrlInjective | src/routes/v1/image.route.js:57-60 | distinct keys have distinct URLs |
| FilmRolls.ObjectUrls | src/routes/v1/image.route.js:57-60 | one URL per key, in order, each naming that key |
| FilmRolls.ListRollObjects | src/routes/v1/image.route.js:52-63 | a failed listing sends 500 "Error listing objects"; otherwise 200 with one URL per listed key, in order, each the public prefix plus the key |
| FilmRolls.RollListingUrls | src/routes/v1/image.route.js:43-61 | listing roll `R` sends a URL for a stored key exactly when the key starts with `R`, with or without a '/' after it |
| FilmRolls.DeletedKeys | src/routes/v1/image.route.js:134-136 | a delete request names one key per object identifier, the `Key` of that identifier, in order |
| FilmRolls.DeleteRequestFor | src/routes/v1/image.route.js:131-139 | the delete request names bucket `film-files`, is not quiet, and names exactly the listed keys, in order |
| FilmRolls.DeleteFilmRoll | src/routes/v1/image.route.js:121-150 | a failed listing sends 500 and deletes nothing; otherwise the listed keys are deleted and the delete reply decides between 500 "Error deleting objects" and "Film roll deleted" |
| FilmRolls.DeletionReachesRollsExtendingName | src/routes/v1/image.route.js:112-136 | deleting roll `R` deletes every stored key of any roll whose name starts with `R` |
| FilmRolls.DeletionCoversRoll | src/routes/v1/image.route.js:112-136 | deleting a roll deletes every stored object of that roll |
| FilmRolls.FavoriteRequest | src/routes/v1/image.route.js:156-159 | the favourite reads bucket `film-files` at a key made of `roll/` and then exactly the file name |
| FilmRolls.Mimetype | src/routes/v1/image.route.js:93 | the `file` field has a media type exactly when it is a single file, and then it is that file's |
| FilmRolls.SeveralFilesAreNotAZip | src/routes/v1/image.route.js:93-96 | several files under `file` are answered 400 "File must be a zip", even when each is a zip |
| FilmRolls.FirstFailing | src/routes/v1/image.route.js:72-96 | the search finds no failing check exactly when all checks hold, and otherwise a failing check all of whose predecessors hold |
| FilmRolls.FirstFailingAdmission | src/routes/v1/image.route.js:72-96 | the checks are tried in the order roll given, rolls listed, roll new, files present, file present, zip type |
| FilmRolls.PostFilmRoll | src/routes/v1/image.route.js:66-108 | the first failing check decides the outcome (throw "Film roll is required", the listing error, or 400 with its message); when all pass the job for the roll, bucket `film-files` and destination path = roll is dispatched and "Files uploaded" is sent |
| FilmRolls.DispatchedIffAllChecksPass | src/routes/v1/image.route.js:72-107 | the job is dispatched if and only if every admission check holds |
| FilmRolls.ExistenceIsExactMatch | src/routes/v1/image.route.js:76-81 | a listed roll `R` rejects an upload to `R` with 400 "Film roll already exists"; a listed roll of any other name does not |
| FilmRolls.StoredRollIsRejected | src/routes/v1/image.route.js:76-81 | an upload to a non-empty, slash-free roll that already has an object in the bucket is rejected as existing |
| FilmRolls.SlashedRollPassesExistenceTest | src/routes/v1/image.route.js:27-30 | with `a/b/c` stored, the root listing names only the roll `a`, so an upload to the roll `a/b` gets past the existence test |
| FilmRolls.MemberKeys | src/routes/v1/image.route.js:228 | one key per member, in order, each `roll/` followed by exactly the member's name |
| FilmRolls.MemberKeysDistinct | src/routes/v1/image.route.js:228 | distinct member names give distinct keys |
| FilmRolls.UploadFilesToS3 | src/routes/v1/image.route.js:193-246 | a failed move throws "Error uploading files"; the result is the keys of all members, in order, exactly when every upload succeeds; otherwise the error is that of a failing upload all of whose predecessors succeeded |
| FilmRolls.UploadedKeysAreListed | src/routes/v1/image.route.js:228-234 | in a bucket that holds the member keys after its earlier objects, listing the roll returns every one of those keys |
| FilmRolls.UploadedRollIsRejected | src/routes/v1/image.route.js:76-81 | in a bucket that holds the key of at least one member of a slash-free roll, an upload to that roll is rejected as existing |
| App.PropertyKey | src/app.js:48 | a boolean left operand of `in` looks up the key "true" for true and "false" for false |
| App.GuestCookieNeedsFalseKey | src/app.js:48 | the guest cookie is set if and only if the parsed cookies hold a key "false" |
| App.NoCookieNoGuestCookie | src/app.js:48-50 | a request with no cookies, or with `email=guest`, does not get the guest cookie |
| App.SetHeaders | src/app.js:43-52 | the three Access-Control headers get their fixed values, other headers stay, the guest cookie is added exactly when the test holds, nothing is sent and `next` is called |
| App.ResolvedUser | src/app.js:59-70 | the user is the `email` cookie's when that cookie is truthy; otherwise an earlier user is kept, and without one it is the guest |
| App.ResolveUserAndGate | src/app.js:59-75 | afterwards `req.user` is defined and equals the resolved user; a rejected request is sent 401 "Unauthorized" and does not call `next`, every other request calls `next` and is sent nothing |
| App.HandleRequest | src/app.js:43-75 | on a request nothing has answered yet: the three headers are set and the others kept, the guest cookie is added exactly when the test holds, the request's method, URL and cookies stay, `req.user` is resolved, and the request reaches the routes exactly when the gate does not reject it, otherwise it gets 401 |
| App.GetIsNeverRejected | src/app.js:71 | a GET request is never rejected, whatever the user |
| App.SignedInIsNeverRejected | src/app.js:71 | a request whose user is not the guest is never rejected |
| App.GuestWritesReachOnlyAuthUrls | src/app.js:71-73 | a guest's write is rejected exactly when its URL is none of the four authentication URLs, compared exactly, so a login URL with a query string is rejected |
| App.ResolvedEmail | src/app.js:60-70 | without an earlier user, the email is the cookie's when it is non-empty and "guest" otherwise; the `=== 'guest'` branch changes nothing |
| App.CookielessWriteIsRejected | src/app.js:64-73 | a write outside the authentication URLs without a usable `email` cookie is rejected |

## Left out

- S3 calls (`listObjectsV2`, `deleteObjects`, `getObject`, `createMultipartUpload`): foreign SDK calls; their replies are parameters. The list `MaxKeys` cap of 1000 keys is not modelled, so neither is the fact that the routes never read a truncated listing's remainder.
- File-system and archive work (`existsSync`, `mkdirSync`, `file.mv`, AdmZip extraction, `createReadStream`, `rmdirSync`): I/O done by libraries. The move's outcome is a parameter of `UploadFilesToS3`, the extracted member names another; the staging paths `uploads/<name>` and `tmp/`, the body streams and the removal of the staging folders are not modelled.
- The directory walk at src/routes/v1/image.route.js:219-224: Node's `fs.readdir` called without a callback throws before returning anything, so after a successful move the source's `uploadFilesToS3` always rejects and uploads nothing. The model's loop is the evidently intended key mapping over an abstract sequence of member names, not that behaviour.
- FilmRolls.UploadFilesToS3: uploads one member after the other; the source starts every upload of a chunk before any settles (`chunk.map` inside `Promise.all`), so keys are pushed in completion order, the error reported is that of whichever failing upload settles first, and every other upload may still complete after it.
- FilmRolls.UploadedKeysAreListed, FilmRolls.UploadedRollIsRejected: the model treats an accepted upload call as storing an object under its key, and these lemmas start from a bucket that holds the member keys. The source's call, `createMultipartUpload`, only starts a multipart upload: it uploads no part and never completes it, so in the source an accepted call leaves no object in the bucket and a later upload to the roll is admitted. No lemma ties an `Ok` result of `UploadFilesToS3` to the bucket's contents.
- The fire-and-forget `worker(job)` call and its unawaited promise: asynchrony; the model ends the upload route at the dispatched job.
- The favourite route's database update (with an undeclared `db`) and its `getObject` reply: external calls; only the object request is modelled.
- The 400 replies for a missing route parameter in the list, delete and favourite routes (49, 118, 162): they do not return, so the handler goes on and replies again, and Express never routes an empty parameter there; the model's handlers proceed as those handlers do after the 400.
- The `urls` array computed and never used in the delete route (126-129).
- `src/config/s3.js`: configuration of the SDK client with no logic.
- The library middleware of `src/app.js` (json and urlencoded parsing, file upload, xss-clean, mongo-sanitize, compression, cors, cookie parsing, the rate limiter, route mounting, 404 and error handlers): library code that is not part of this model. Cookies are taken as already parsed into a map of string values.
- App.ResolvedUser: cookie values that cookie-parser decodes to JSON objects (`j:` cookies) are not modelled; every cookie value is a string.
