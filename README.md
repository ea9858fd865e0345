# Blog CRUD service: a verified model

A Dafny model of the core of a small Express/Mongoose blog API mounted at
`/api/blogs`. It has two parts:

- **The blog schema** (`BlogModel`, from `models/blog.js`). A post is the datatype `Blog`:
  - `title` and `content`: the required `blog_title` and `blog_content` strings;
  - `date`: set by default to `Date.now` at construction;
  - `image`: optional, `null` when absent.

  `Conforms` is the validation that `save` runs: required strings must be non-empty, and a non-null `image` must pass the validator `^(http|https)://[^ "]+$`. `ValidUrl` models that validator. A prefix test picks the scheme, then the recursive `UrlTail` matches `[^ "]+$` character by character. The lemmas prove `ValidUrl` equal to a direct description, `UrlShape`:
  - `http://` or `https://`,
  - followed by a non-empty rest,
  - in which no character is a space or a `"`.

  JavaScript regex semantics apply. There is no `m` flag, so `$` is the end of the input, and newlines and tabs are in the class.
- **The five route handlers** (`BlogRoutes`, from `routes/blogRoutes.js`). The database collection is the field `blogs: map<Id, Blog>` of the class `BlogStore`. Each handler is a method of that class: `Create`, `List`, `Get`, `Delete`, `Patch`.
  - Each method is proved to agree with a pure step function (`CreateStep`, `ListStep`, `GetStep`, `DeleteStep`, `PatchStep`). The step function gives the response (status plus document, documents or `{ message }`) and the store left behind.
  - The contracts of the step functions state the handler's decisions: 400, 404, 201/200 or 500, each with the exact message strings of the source, and which store results from each.
  - Lemmas relate several steps: create-then-get, delete-then-get, patch-then-get, patch idempotence, and "other ids are untouched".
  - The invariant `BlogStore.Valid` holds in every state: every stored post conforms to the schema, and every id is below `nextId`.
  - `Handle` is the router: it dispatches one request to its handler's step function. `Run` folds it over a sequence of requests. Each handler method (`Create`, `List`, `Get`, `Delete`, `Patch`) is proved to move the store's state as `Handle` does.
  - Two lemmas hold over any sequence of requests. The store invariant is kept. An id that was handed out and is no longer stored (deleted, or its create failed) never comes back, so GET on it answers 404 forever.

Modelling choices:

- Body fields are `Option<string>`. JavaScript truthiness is `Truthy`: an absent field and `""` are both falsy. `OrNull` is `blog_image_url || null`.
- `Date.now` is the parameter `now`.
- The id Mongo assigns comes from the store's supply `FreshId`. It hands out `nextId` and advances it, so a new id is never in the map and a deleted id is never handed out again.
- Every way the database can throw is one `fault` flag, passed to each handler: a lost connection, or a CastError on a malformed id. With `fault` set, a handler that reaches the database answers 500 `Server error` and leaves the collection unchanged. POST still answers 400 first when a required field is falsy (routes/blogRoutes.js:10-12), and a POST past that guard has used up its id.
- A rejected image URL makes `save` throw a ValidationError. The `catch` turns that into 500 as well, with nothing persisted (routes/blogRoutes.js:20-25 and 85-90).
- PATCH messages differ from GET and DELETE. PATCH says `Blog not found.` with a full stop; GET and DELETE say `Blog not found`. The model keeps both strings.

## Model

| member | source | states |
|---|---|---|
| BlogModel.UrlTail | models/blog.js:12 | the `[^ "]+$` tail of the pattern: one or more characters, none a space or `"`, up to the end of the input |
| BlogModel.ValidUrl | models/blog.js:10-13 | the `image` validator of line 12: the `http://` or `https://` prefix followed by a tail `UrlTail` accepts |
| BlogModel.Conforms | models/blog.js:3-17 | the schema's save-time validation: `required` title and content (lines 4-5) are non-empty strings, and the validator (lines 10-13) holds of a non-null image |
| BlogModel.UrlTailIff | models/blog.js:12 | the tail matcher for `[^ "]+$` accepts exactly the non-empty strings with no space and no `"` |
| BlogModel.ValidUrlIff | models/blog.js:12 | the validator accepts `s` exactly when `s` is `http://` or `https://` followed by a non-empty rest free of spaces and `"` (both directions) |
| BlogModel.BareSchemeRejected | models/blog.js:12 | `http://` and `https://` alone are rejected |
| BlogModel.OtherSchemeRejected | models/blog.js:12 | a string starting with neither `http://` nor `https://` is rejected |
| BlogModel.RejectedExamples | models/blog.js:12 | `ftp://x`, `HTTP://x` and `x` are rejected (anchored, case-sensitive) |
| BlogModel.NewlineAccepted | models/blog.js:12 | a newline after the scheme is accepted: no `m` flag, and `[^ "]` includes it |
| BlogModel.AcceptedHasNoForbidden | models/blog.js:12 | no character of an accepted string is a space or `"` |
| BlogModel.ForbiddenCharRejected | models/blog.js:12 | a string with a space or `"` at any position is rejected |
| BlogModel.AppendUrlChars | models/blog.js:12 | an accepted URL followed by a non-empty run with no space or `"` is still accepted |
| BlogModel.AppendForbiddenRejected | models/blog.js:12 | appending anything that holds a space or `"` gives a rejected string |
| BlogModel.NewBlog | models/blog.js:3-18 | a constructed document keeps the supplied title, content and image, and takes `now` as its date when none is supplied |
| BlogRoutes.Truthy | routes/blogRoutes.js:10 | JavaScript truthiness of a body field, as in `!blog_title` (line 10) and `if (blog_title)` (lines 81-83): falsy exactly when absent or the empty string |
| BlogRoutes.ServerErrorResponse | routes/blogRoutes.js:22-25 | the answer of every `catch` block (lines 24, 35, 50, 65, 89): its contract states status 500; the `Server error` message comes from its body |
| BlogRoutes.OrNull | routes/blogRoutes.js:17 | the or-null default of the image is the URL exactly when it is truthy, null otherwise |
| BlogRoutes.CreateStep | routes/blogRoutes.js:6-26 | 400 with the required-fields message exactly when title or content is falsy, store unchanged; 201 exactly when both are truthy, the database works and a truthy image URL is valid, in which case the store gains the record (title, content, `now`, URL or null) under the supplied id and the response carries it; otherwise 500 and store unchanged; schema conformance of all records preserved |
| BlogRoutes.ListStep | routes/blogRoutes.js:29-37 | 200 with every stored document exactly when the database works, 500 otherwise |
| BlogRoutes.GetStep | routes/blogRoutes.js:40-52 | 200 with the stored record exactly when the id is present, 404 `Blog not found` exactly when absent, 500 on a database failure |
| BlogRoutes.DeleteStep | routes/blogRoutes.js:55-67 | 200 with the deletion message exactly when the id is present, and then only that key is removed; 404 when absent and 500 on failure, store unchanged; no surviving entry changes |
| BlogRoutes.ApplyPatch | routes/blogRoutes.js:80-83 | each truthy field overwrites, each falsy field keeps its old value, the date never changes, and a non-empty title or content stays non-empty |
| BlogRoutes.PatchStep | routes/blogRoutes.js:70-91 | 404 `Blog not found.` exactly when the id is absent; 200 exactly when present and the patched record passes validation, storing it under the same id; otherwise 500 and store unchanged; a patch whose truthy image is valid always succeeds on a conforming store |
| BlogRoutes.CreateAddsOne | routes/blogRoutes.js:14-21 | a successful create under a fresh id adds exactly one key and keeps every earlier record |
| BlogRoutes.CreateThenGet | routes/blogRoutes.js:14-21 | a created post fetched by its id comes back with the supplied title and content, the creation time and the supplied URL (or null); a truthy URL round-trips unchanged |
| BlogRoutes.DeleteThenGet | routes/blogRoutes.js:55-62 | after deleting an id, fetching it gives 404 `Blog not found` |
| BlogRoutes.OthersUnchanged | routes/blogRoutes.js:55-91 | delete and patch of one id leave every other id's GET answer as it was |
| BlogRoutes.ApplyPatchIdempotent | routes/blogRoutes.js:81-83 | applying the same field updates twice equals applying them once |
| BlogRoutes.PatchIdempotent | routes/blogRoutes.js:75-86 | sending the same PATCH twice leaves the same store and gives the same response as sending it once |
| BlogRoutes.PatchThenGet | routes/blogRoutes.js:81-86 | after a successful patch, fetching the id gives the patched record |
| BlogRoutes.Handle | routes/blogRoutes.js:6-91 | one request changes the store as its handler's step does; the id supply never goes back, only ids at or above the old supply value appear, and the store invariant is kept |
| BlogRoutes.RunPreservesValid | routes/blogRoutes.js:6-91 | after any sequence of requests, every stored post conforms to the schema and every id was handed out by the supply |
| BlogRoutes.RetiredIdStaysAbsent | routes/blogRoutes.js:55-62 | a handed-out id that is no longer stored stays absent after any sequence of requests, and GET on it gives 404 |
| BlogRoutes.BlogStore.constructor | models/blog.js:20 | the collection starts empty and valid |
| BlogRoutes.BlogStore.FreshId | routes/blogRoutes.js:14 | the id given to a new document is not in the store |
| BlogRoutes.BlogStore.Save | models/blog.js:3-18 | `save` persists the document exactly when the database works and the document passes the schema's validation, and otherwise changes nothing |
| BlogRoutes.BlogStore.FindById | routes/blogRoutes.js:43 | the lookup finds a document exactly when the id is stored, and it is the stored one |
| BlogRoutes.BlogStore.Create | routes/blogRoutes.js:6-26 | the POST handler's response and new store are those of `CreateStep` with the next id of the supply, and those of `Handle` |
| BlogRoutes.BlogStore.List | routes/blogRoutes.js:29-37 | the GET `/` handler answers as `ListStep` (and `Handle`) and does not modify the store |
| BlogRoutes.BlogStore.Get | routes/blogRoutes.js:40-52 | the GET `/:id` handler answers as `GetStep` (and `Handle`) and does not modify the store |
| BlogRoutes.BlogStore.Delete | routes/blogRoutes.js:55-67 | the DELETE handler's response and new store are those of `DeleteStep` and `Handle` |
| BlogRoutes.BlogStore.Patch | routes/blogRoutes.js:70-91 | the PATCH handler's field-by-field update and save give the response and new store of `PatchStep` and `Handle` |

## Left out

- `server.js`: the environment, the CORS and body-parser middleware, `mongoose.connect`, `app.listen` and the port. All of it is I/O set-up.
- Asynchrony and interleaving of concurrent requests: each handler is one atomic step.
- How MongoDB generates ObjectIds: the model uses a counter-based fresh-id supply instead.
- Malformed id strings: a CastError is folded into the `fault` flag, so it gives 500. Ids are naturals, so such a string is not represented.
- Database failures: all of them are the single `fault` flag. The model does not say which database call failed.
- The validator's error message (models/blog.js:14): every handler answers `Server error` in its place, so it never reaches a client.
- Whether Mongoose runs the custom validator on a `null` image: the model assumes the validator is skipped for a null image (`Conforms`), so a create without a URL answers 201; if Mongoose ran it, `test(null)` would test the string `"null"` and fail, and such a create would answer 500.
- The collection's starting contents: `mongoose.model('Blog', blogSchema)` (models/blog.js:20) binds to whatever the collection already holds, but the model starts from an empty collection (`BlogStore.constructor`) written only through these handlers. `BlogStore.Valid`, the last ensures of `PatchStep` and the next line depend on that assumption.
- Mongoose validating only modified paths when an existing document is saved: every stored record conforms (`BlogStore.Valid`), so validating the whole record gives the same verdict.
- Non-string values in the JSON body (numbers, objects, arrays): `Field` holds strings only.
- `console.error` logging, JSON serialisation (including Mongoose's `_id` and `__v` keys) and the Express router: not modelled.
- The listing order of GET `/`: `ListStep` and `BlogStore.List` return the collection as a map, because the source leaves the order to the database.
- Image upload: these handlers take the image only as the `blog_image_url` string field.
