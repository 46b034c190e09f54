# Posenger post access, modelled in Dafny

This project models the decision logic of a small blogging backend. The backend is reached two ways: GraphQL resolvers and REST controllers. Both read and change posts and users stored in a document database.

What is modelled:

- **The store** (`Store.Db`). Posts and users are kept by id. The store also keeps the post ids in creation order and records every image path handed to `clearImage`. Fresh ids grow, so creation order is also id order. `Db.Valid()` keeps four invariants: the order lists exactly the stored posts, strictly increasing; every stored post passes the schema's `required` checks; every id is below the next fresh one; emails are unique.
- **The GraphQL resolvers** (`Resolvers`). Each resolver is a method over the store and runs a strictly ordered gate: authentication (401), existence (404), ownership (403), field validation (422, with every failing field in `data`), and only then the store update. A call rejected by the gate leaves the store unchanged (`unchanged(db)`). The one failure that comes after a write is `deletePost` for a caller whose user record is gone: the image is cleared and the post removed before `user.posts.pull` fails.
- **The ownership middleware** (`IsOwner.Check`). It makes one lookup and compares the creator's id with the caller's. Both rejections keep their 401, and any other error becomes 500. On a failure `next` is called twice.
- **The REST feed controllers** (`Feed`), together with the `trim().isLength({min: 5})` chains of their routes. The image-choice rule, the "clear the old image only if it changed" rule, paging, and the first-code-wins `setError` are all modelled.
- **The two boundary helpers of app.js** (`App`): the upload type filter and the final error handler.

Supporting modules:

- `Text`: the length rule and `trim`.
- `Sequences`: `pull`, reversal and id order.
- `Paging`: page numbers, `skip`/`limit`, and the fact that the pages cover the list.
- `Errors`: the two error conventions.
- `Documents`: the post and user records.

Where the intended design and the code disagree, the model follows the code, with two exceptions. The timestamp fields are not modelled, and the resolvers return the intended documents in the intended newest-first order (see "## Left out"). The ownership test of the resolvers' `deletePost` is modelled as written and then corrected (see "## Findings"). The cases where the model follows the code:

- The REST ownership middleware answers a missing post with 401, not 404.
- REST `createPost` answers 200, not 201, and rejects bad input with status 404.
- REST `updatePost` goes ahead after a failed validation.
- The resolvers do not trim input; the REST routes do.
- REST `getPost` answers a missing post with 500, because it throws an undeclared variable.
- REST `createPost` without a file throws a ReferenceError (`Err` is undefined). That error has no status, so the error handler answers 500.

Store behaviour the model relies on:

- Mongoose's `required` rejects an empty string. A save of such a post fails: GraphQL throws an error without a code, REST sends 500.
- MongoDB rejects a negative `skip`. So GraphQL page -1, or the REST query `page=0`, gives a store error. A query string "0" is truthy, so it is not replaced by 1.
- The resolvers' `updatePost` reads `creator._id`. The ownership middleware does the same. For a post created over REST, the creator is `{ name: 'Duc' }`, which has no `_id`, so this fails with a TypeError. In the resolvers that is an error without a code; in the middleware it becomes 500.
- The resolvers' `deletePost` compares `creator.toString()` with the caller's id. The schema types `creator` as `Object`, so the creator is stored as an embedded document (the whole user, or `{ name: 'Duc' }`). Such a document prints as "[object Object]", so as written no caller passes the test and every delete of an existing post is 403. The model uses the intended comparison of ids.

## Model

| member | source | states |
|---|---|---|
| Text.TooShort | graphql/resolvers.js:80-89 | `isEmpty(s) \|\| !isLength(s, {min: 5})` holds exactly when `s` measures fewer than 5 characters (`Text.Length`: code points, without the presentation selectors U+FE0E and U+FE0F); every string of fewer than 5 characters is rejected; there is no trimming |
| Text.Length | graphql/resolvers.js:19 | the length `isLength` measures (the characters less the presentation selectors) never exceeds the number of characters |
| Text.LengthAppend | graphql/resolvers.js:19 | the measured length of a concatenation is the sum of the measured lengths |
| Text.LengthWithoutSelectors | graphql/resolvers.js:19 | a string without presentation selectors measures exactly its number of characters |
| Text.LengthPrefix | routes/feed.js:11-12 | dropping trailing characters (as `trim()` does) never increases the measured length |
| Text.LengthSuffix | routes/feed.js:11-12 | dropping leading characters (as `trim()` does) never increases the measured length |
| Text.PresentationSelectorNotCounted | graphql/resolvers.js:80 | a five-character title whose last character is U+FE0F is still too short |
| Text.Trim | routes/feed.js:11-12 | the trimmed string is the infix left after removing the leading and the trailing white space (`Text.IsSpace`: every character JavaScript's `\s` matches, Unicode spaces and the byte order mark included); it neither starts nor ends with white space |
| Text.TrimIdempotent | routes/feed.js:11-12 | trimming a trimmed string changes nothing |
| Text.TrimmedLongEnoughIsLongEnough | routes/feed.js:10-21 | a field the routes accept (trimmed length ≥ 5) also passes the resolvers' untrimmed test |
| Text.PaddedShortFieldDiffers | routes/feed.js:10-21 | a four-letter field followed by a space passes the resolvers' test but fails the routes' trimmed test, so the two rules differ |
| Sequences.Pull | graphql/resolvers.js:243 | `pull(id)` leaves no occurrence of `id`, keeps every other id, never grows the list, and changes nothing when `id` is absent |
| Sequences.PullKeepsOthers | graphql/resolvers.js:243 | every other id keeps its number of occurrences after a pull |
| Sequences.PullIncreasing | graphql/resolvers.js:241 | removing a post keeps the creation order strictly increasing |
| Sequences.Reverse | graphql/resolvers.js:135 | the reversed list has the same length, with position `i` holding the element at `n-1-i` |
| Sequences.ReverseIncreasing | graphql/resolvers.js:135 | reversing the creation order gives a strictly decreasing list with the same ids (newest first) |
| Paging.Skip | graphql/resolvers.js:136 | `(page - 1) * perPage` is negative exactly for a page below 1, and always a multiple of the page size |
| Paging.GraphQLPage | graphql/resolvers.js:123-126 | a missing page or page 0 becomes 1; any other page is kept, and the result is never 0 |
| Paging.RestPage | controllers/feed.js:7 | only a missing page becomes 1; a given query value (even "0", which is truthy) is kept |
| Paging.Window | graphql/resolvers.js:136-137 | `skip`/`limit` gives at most `limit` documents; slot `k` holds the document at `skip + k` |
| Paging.PagesCover | graphql/resolvers.js:127-137 | pages 1..n read in turn are exactly the first 2n documents, with no gap and no repeat |
| Paging.PagesCoverAll | graphql/resolvers.js:127-137 | enough pages list every document exactly once, in order |
| Paging.PageOf | graphql/resolvers.js:136-137 | the document at position k is shown on page k/2 + 1, in slot k % 2 |
| Paging.FirstPageDefault | graphql/resolvers.js:123-126 | a missing page and page 0 both show the first two documents |
| Paging.RestPageZeroSkipsBackwards | controllers/feed.js:7-15 | the REST query "0" gives a negative skip, while the resolvers' page 0 gives skip 0 |
| Errors.SetStatus | middleware/is-owner.js:26-30 | `setError(err, code)` keeps an existing status, fills in `code` only when none is set, and leaves message and data alone |
| Errors.ExistingStatusWins | controllers/feed.js:128-139 | once an error has a status, no later `setError` changes it (the 404 survives `setError(err, 500)`) |
| Errors.FirstCodeWins | controllers/feed.js:145-149 | the first non-zero code assigned is the one that stays |
| App.FileFilter | app.js:24-34 | the filter never raises an error; it accepts a file exactly when its mimetype is one of `image/png`, `image/jpg`, `image/jpeg` |
| App.Upload | app.js:31-33 | `req.file` is the upload when the filter accepts it and silently absent otherwise |
| App.HandleError | app.js:58-64 | the response status is `err.statusCode` when it is set and non-zero, otherwise 500; message and data pass through unchanged |
| App.FirstCodeIsStatus | app.js:60 | for an error made by `new Error(message)` (`Errors.Plain`: no status, no data), after any chain of `setError` calls the client sees the first non-zero code |
| Store.Db.NewestFirst | graphql/resolvers.js:134-135 | the posts sorted newest first: every stored post exactly once, in strictly decreasing creation order |
| Store.Db.OrderSize | graphql/resolvers.js:133 | the count of posts equals the length of the list that is paged |
| Store.Db.FindUserByEmail | graphql/resolvers.js:31 | `findOne({email})` finds a user with that email exactly when one exists |
| Store.Db.InsertPost | graphql/resolvers.js:111 | saving a new post that passes the schema's `required` checks (`Documents.Post.Savable`: title, content and image non-empty) stores it under a fresh id at the end of the creation order; nothing else changes |
| Store.Db.InsertUser | graphql/resolvers.js:43 | saving a new user stores it under a fresh id; posts are unchanged |
| Store.Db.ReplacePost | graphql/resolvers.js:214 | saving a loaded post replaces exactly that post |
| Store.Db.ReplaceUser | graphql/resolvers.js:273-274 | saving a loaded user replaces exactly that user |
| Store.Db.RemovePost | graphql/resolvers.js:241 | `findByIdAndRemove` drops the post and its id from the creation order; users are unchanged |
| Store.Db.ClearImage | controllers/feed.js:151-156 | `clearImage` records the path; the store's documents are unchanged |
| Resolvers.SignupErrors | graphql/resolvers.js:12-22 | "Email is invalid" exactly when the email check fails, and "Password too short!" exactly when the password is too short; both are collected, at most these two |
| Resolvers.PostInputErrors | graphql/resolvers.js:79-89 | a field's message is listed exactly when that field measures fewer than 5; both failures are collected, the title's first, at most these two; the list is empty only when both fields are valid |
| Resolvers.Updated | graphql/resolvers.js:209-213 | the update replaces title and content, and replaces the image unless the input is the string 'undefined'; the creator is kept |
| Resolvers.CreateUser | graphql/resolvers.js:9-45 | 422 with every signup error first (`Resolvers.Invalid`: code 422, the messages as `data`), then an error without code (`Errors.Uncoded`) for a taken email; a user is created exactly when both pass, with the hashed password and no posts; on failure the store is unchanged |
| Resolvers.Login | graphql/resolvers.js:47-70 | an unknown email is 401 "User not found", a wrong password 401 "Password is incorrect"; otherwise the token carries the user's id and email and lasts one hour |
| Resolvers.CreatePost | graphql/resolvers.js:72-120 | 401, then 422 listing every bad field (`Resolvers.Invalid`), then 401 "Invalid user"; on success the post's creator is the caller and its id is pushed onto the caller's posts; on failure the store is unchanged |
| Resolvers.Posts | graphql/resolvers.js:122-148 | 401 when not authenticated; otherwise the window skip (page-1)*2, limit 2, over all posts newest first, together with the count of all posts |
| Resolvers.GetPost | graphql/resolvers.js:150-171 | 401, then 404, both made by `setError` (`Errors.Coded`: that message, that code, no data), then the stored post |
| Resolvers.UpdatePost | graphql/resolvers.js:173-221 | strict order 401, 404, 403 (unless `Resolvers.OwnedBy`: the creator's id is the caller's), 422; the post is saved only when all pass, with only its fields changed; on failure the store is unchanged |
| Resolvers.DeletePost | graphql/resolvers.js:223-246 | strict order 401, 404, 403 (unless `Resolvers.OwnedBy`, the corrected ownership test); on success the image is cleared, the post removed and its id pulled from the caller's posts, and the result is true |
| Resolvers.GetUser | graphql/resolvers.js:247-260 | 401, then 404, then the caller's user |
| Resolvers.UpdateStatus | graphql/resolvers.js:261-276 | 401, then 404, then only the caller's status changes |
| Resolvers.AsWrittenDeleteRefusesEveryone | graphql/resolvers.js:235-239 | as written, the string form of the stored creator never equals a caller's id, so every delete of an existing post is 403, the owner's included |
| Resolvers.DeleteTwice | graphql/resolvers.js:229-234 | after a successful delete, deleting the same id again is 404 |
| IsOwner.Check | middleware/is-owner.js:3-24 | a missing post is 401 "Could not find post"; another caller is 401 "Not Authenticated"; a creator without an id gives 500; on success `req.post` is the single looked-up document and `next()` is called once; on failure `next(err)` is followed by `next()` |
| Feed.SanitizeIdempotent | routes/feed.js:19-20 | the sanitizers (`Feed.Sanitize`: title and content trimmed, image untouched) applied twice equal them applied once |
| Feed.RouteValidIsResolverValid | routes/feed.js:10-21 | input the routes accept (`Feed.RouteValid`: both trimmed fields measure at least 5) passes the resolvers' length rule, before and after trimming |
| Feed.ChooseImage | controllers/feed.js:92-95 | the image is the uploaded file's path when there is one, else the body's image |
| Feed.UploadDecidesImage | controllers/feed.js:92-95 | an upload the filter refuses leaves the body's image; an accepted one overrides it |
| Feed.GetPosts | controllers/feed.js:6-24 | the window skip (page-1)*2, limit 2, over posts in stored order, with the count of all posts; a negative skip is a 500 |
| Feed.GetPost | controllers/feed.js:26-40 | the stored post with 200; a missing post is 500 |
| Feed.CreatePost | controllers/feed.js:42-80 | input the routes reject (`Feed.RouteValid` fails) is thrown with 404; a missing file is thrown with no status; otherwise the trimmed fields are stored with the file path and creator `{name: 'Duc'}`, and no user changes |
| Feed.UpdatePost | controllers/feed.js:82-122 | no image gives 422 before any lookup; a missing post is 404; otherwise the stored post is revised (`Feed.Revise`) with the trimmed title and content; a failed validation does not stop the update |
| Feed.Revise | controllers/feed.js:109-121 | the old image is cleared exactly when it differs from the new one; exactly title, image and content are replaced and the creator kept; a post with an empty field is not saved (500), though the image was already cleared |
| Feed.DeletePost | controllers/feed.js:124-142 | a missing post is 404; otherwise the image is cleared and the post removed, with no ownership check and no user list changed |
| Feed.DeleteTwice | controllers/feed.js:127-136 | a second REST delete of the same post reaches the client as 404, the status the client receives being the response's own or the error handler's (`Feed.StatusOf`) |

## Findings

| source | as written | input that shows it | evidently intended | confidence | as-written member | corrected member |
|---|---|---|---|---|---|---|
| graphql/resolvers.js:235 | `post.creator.toString() !== req.userId.toString()`, where `creator` is an embedded document (models/post.js:20-23) whose string form is "[object Object]" | the creator of a post, authenticated, deletes that post: the answer is 403 "Not authorized!" | compare the creator's `_id` with the caller's id, as `updatePost` (graphql/resolvers.js:185) and the ownership middleware do | medium; not executed | Resolvers.AsWrittenDeleteRefusesEveryone | Resolvers.DeletePost |

## Left out

- Password hashing and comparison: `bcrypt.hash` and `bcrypt.compare` are function parameters of `CreateUser` and `Login`.
- `validator.isEmail` is also a function parameter. Email normalisation and the async uniqueness check of the auth routes are not modelled.
- JWT signing and verification are not modelled. `Login` returns the payload (`userId`, `email`) and the one-hour lifetime instead of a signed token. The middleware that sets `req.isAuth` and `req.userId` is not part of this model; both arrive as a `Resolvers.Context`, or as an optional caller id for `IsOwner.Check`.
- Resolvers.CreatePost, Resolvers.UpdatePost, Resolvers.GetPost, Resolvers.Posts: the date fields are not modelled, and these members return the intended documents. The schema option is spelled `timestamp` (models/post.js:25), so Mongoose adds no `createdAt` or `updatedAt`. As written, `createdAt.toISOString()` (graphql/resolvers.js:117, 143, 168, 218) then throws a TypeError. So `createPost` and `updatePost` fail after their writes, `post` fails for every existing post, and `posts` fails whenever its page is not empty. Likewise `sort({ createdAt: -1 })` has no field to sort on; the model uses the intended newest-first order, with creation order standing for `createdAt`.
- Text.Length follows the `validator` releases whose `isLength` counts a surrogate pair once and skips U+FE0E and U+FE0F; the package version is not pinned in the files modelled, and older releases counted UTF-16 code units. A Dafny string holds code points, so a lone surrogate cannot be expressed.
- Mongoose mechanics are not modelled: `populate`, `_doc` shaping, casting a malformed id string, and store I/O failures other than the schema's `required` check and a negative `skip`.
- Path joining and the unlink in `clearImage` are not modelled; the path is recorded, best effort. Multer disk storage and file naming are not modelled either: a file arrives as its path and mimetype.
- The REST query `page` and the body fields arrive already parsed. A non-numeric page, an empty-string page, and missing title or content fields are not modelled.
- Feed.UpdatePost: a "No file picked" error thrown from the async controller, outside its try block, is modelled as `Thrown`. Whether Express forwards it to the error handler depends on the Express version, which is not part of this model.
- Express routing, CORS headers, body parsing, static files, the database connection and the auth routes' controllers are not modelled.
- Concurrent requests and the non-atomic pair of writes (post, then user) are not modelled: requests run one after another.
