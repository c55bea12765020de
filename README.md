# Video and user registries, modelled in Dafny

This project models the in-memory registries behind a small HTTP API.

- The **video registry** (`src/routes/video.ts`) keeps a list of video records in insertion order. It has four routes:
  - list: an optional exact-match filter on `userId`, then the page `[offset, offset + limit)`, plus the pre-page `total`;
  - get-by-id: the first record with that id, or a 404 error body;
  - upload: appends one record whose fields are derived from the title, the user id and generated values;
  - partial update: overwrites the title of the first record with that id, in place, or replies 404.
- The **user registry** exists twice, in `src/routes/routes.ts` and in `src/routes.ts`. Each file owns its own module-level list. Each offers a list route and an append-only create route.

Layout:

- `wrappers.dfy` (`Wrappers`): `Option`, used for optional query and body fields.
- `http.dfy` (`Http`): the status codes and the reply shape `Ok(status, value)` / `Failure(status, {error, message})`.
- `slug.dfy` (`Slug`): the upload filename `title.toLowerCase().replace(/\s+/g, "-") + ".mp4"`.
- `videos.dfy` (`Videos`): the video record, the pure list, find and merge functions, and `VideoStore`, a class holding the list as a `seq` and exposing one method per route.
- `users.dfy` (`Users`): `UserRegistry`, a class holding one file's user list, and a pure model of a run of requests.
- `app.dfy` (`App`): `Server`, which owns the video store and the two user registries as three distinct objects, so a request to one cannot change the others.

How the source's logic maps to Dafny:

- `filter`, `find`, `findIndex` and `slice` are library calls over arrays. They are modelled as recursive or closed-form functions whose contracts say what those calls return.
- `push` and the indexed overwrite change the stored list. They are modelled as methods of the store class, with `modifies` and postconditions stating the whole new list.
- Request-schema validation is modelled as preconditions: title length 1..100, `limit` 1..100. Absent `limit` and `offset` take their defaults, 10 and 0.
- The fresh UUIDs, the random duration and size (already scaled and floored), and the clock are parameters (`Videos.Generated`, and the `id` argument of user creation).

Three points where the model follows what the code does:

- src/routes/routes.ts:11 and src/routes.ts:11 each own a separate array, so the model has two `UserRegistry` instances.
- `VideoSchema` declares `duration` and `fileSize` `positive()` (src/routes/video.ts:12-13), but the generator can produce 0 (src/routes/video.ts:137-138). The model treats them as naturals below 3600 and 100000000.
- The list route filters only when `userId` is truthy (src/routes/video.ts:59). The model does the same: an empty `userId` pages through the whole list.

## Model

| member | source | states |
|---|---|---|
| `Slug.IsSpace` | src/routes/video.ts:134 | the characters `\s` matches: exactly ECMAScript's whitespace and line-terminator set (U+0009..U+000D, U+0020, U+00A0, U+1680, U+2000..U+200A, U+2028, U+2029, U+202F, U+205F, U+3000, U+FEFF); none of them is a letter, a digit, `-` or `.` |
| `Slug.SkipSpaces` | src/routes/video.ts:134 | the greedy `+` of `\s+`: the result is a suffix of the input that is empty or starts with a non-whitespace character |
| `Slug.LowerChar` | src/routes/video.ts:134 | lowercasing one character leaves no upper-case ASCII letter, moves `A`..`Z` to `a`..`z`, keeps every other character and never creates or removes whitespace |
| `Slug.Lower` | src/routes/video.ts:134 | `toLowerCase` keeps the length, lowercases position by position, leaves no upper-case ASCII letter and keeps whitespace where it was |
| `Slug.CollapseSpaces` | src/routes/video.ts:134 | `replace(/\s+/g, "-")` leaves no whitespace and never lengthens the string |
| `Slug.CollapseSolid` | src/routes/video.ts:134 | a string without whitespace is unchanged by the replacement |
| `Slug.CollapseAppend` | src/routes/video.ts:134 | the replacement distributes over a concatenation whose left part does not end in whitespace |
| `Slug.CollapseLeadingRun` | src/routes/video.ts:134 | a nonempty whitespace run at the front becomes exactly one `-` |
| `Slug.CollapseRun` | src/routes/video.ts:134 | every maximal whitespace run between two parts becomes exactly one `-`, with the parts collapsed independently |
| `Slug.Filename` | src/routes/video.ts:134 | the upload filename contains no whitespace and no upper-case ASCII letter, and ends in `.mp4` |
| `Slug.TwoWordFilename` | src/routes/video.ts:134 | for two whitespace-free words separated by any whitespace run, the filename is the lowercased words joined by `-`, followed by `.mp4` |
| `Slug.MyClipFilename` | src/routes/video.ts:134 | the title `My Clip` gives the filename `my-clip.mp4` |
| `Videos.Filter` | src/routes/video.ts:60 | the filtered list holds exactly the stored records with that `userId` and is no longer than the store |
| `Videos.FilterAppend` | src/routes/video.ts:60 | filtering distributes over concatenation, so it keeps relative insertion order |
| `Videos.FilterCounts` | src/routes/video.ts:59-67 | each record of the user occurs in the filtered list as often as in the store, and no other record occurs; so `total` counts the user's records |
| `Videos.Selected` | src/routes/video.ts:57-61 | with a truthy (present, nonempty) `userId`, the sequence paged through holds exactly the stored records of that user; otherwise it is the whole list |
| `Videos.Slice` | src/routes/video.ts:63 | `slice(start, end)` with non-negative bounds has length `max(min(end, n) - start, 0)`, and its element `i` is element `start + i` of the input |
| `Videos.PageLength` | src/routes/video.ts:63-67 | the page has `min(limit, max(total - offset, 0))` elements, and is empty, with no error, when `offset >= total` |
| `Videos.PagesTile` | src/routes/video.ts:63 | the page at `offset` of size `m`, followed by the page at `offset + m` of size `n`, is the page at `offset` of size `m + n` |
| `Videos.FindIndex` | src/routes/video.ts:177 | `findIndex` gives a position exactly when some record has the id, and then it is the first such position |
| `Videos.Find` | src/routes/video.ts:94 | `find` gives a record exactly when some record has the id, and then it is the record at the first such position |
| `Videos.FindIndexByIds` | src/routes/video.ts:177 | the search result depends only on the sequence of ids |
| `Videos.NotFound` | src/routes/video.ts:96-100 | the 404 body has `error = "Not Found"` and message `Video with id <id> was not found`, with the id at offsets 14 onwards |
| `Videos.NewVideo` | src/routes/video.ts:131-142 | the new record carries the generated id, the input title and user id, `video/mp4`, the clock reading, the generated duration and size, and the video and thumbnail URLs built from the other two generated UUIDs; its filename is `Slug.Filename(title)` and has no whitespace; valid input and in-range generated values give a well-formed record |
| `Videos.Merge` | src/routes/video.ts:186-189 | the patch changes only `title`, and only when a title is provided; the filename is not recomputed; well-formedness is kept |
| `Videos.MergeIdempotent` | src/routes/video.ts:186-189 | applying a patch twice equals applying it once |
| `Videos.FindAppended` | src/routes/video.ts:144 | a record appended under an id not yet stored is found at the last position by a lookup of that id |
| `Videos.FindAfterMerge` | src/routes/video.ts:186-191 | the in-place merge keeps every id, so every lookup gives the same position, and a lookup of the patched id gives the merged record |
| `Videos.VideoStore.constructor` | src/routes/video.ts:30 | the registry starts empty and well-formed |
| `Videos.VideoStore.List` | src/routes/video.ts:54-71 | echoes `limit` and `offset` (or their defaults); `total` is the length of the whole list, or of the user's filtered list when `userId` is truthy; the page has `min(limit, max(total - offset, 0))` records, element `i` being filtered element `offset + i`; every record belongs to the requested user; the store is not modified |
| `Videos.VideoStore.Get` | src/routes/video.ts:92-104 | replies 200 with the first record having the id exactly when one exists, and otherwise the 404 body naming the id |
| `Videos.VideoStore.Upload` | src/routes/video.ts:127-151 | appends exactly the new record at the end, with all earlier records unchanged; replies 201 with the new id, the fixed message and `https://upload.example.com/<id>`; keeps the store well-formed; when the id was not stored before, get-by-id then finds the new record |
| `Videos.VideoStore.Update` | src/routes/video.ts:173-192 | on an unknown id, replies 404 and leaves the store unchanged; otherwise replaces only the first matching record by its merge with the patch; length, order, ids and other records stay the same; replies 200 with the stored record, which get-by-id then returns |
| `Users.Apply` | src/routes/routes.ts:27-49 | a list request leaves the list as it is; a create request appends exactly one user with the given name, email and id, keeping the old list as a prefix |
| `Users.RunAppends` | src/routes/routes.ts:11-53 | after any sequence of requests, the list is the old list followed by the created users in request order, so the old list is a prefix |
| `Users.UserRegistry.constructor` | src/routes/routes.ts:11 | each route file's list starts empty |
| `Users.UserRegistry.List` | src/routes/routes.ts:27-29 | replies 200 with the whole list as stored, in insertion order, without changing it |
| `Users.UserRegistry.Create` | src/routes/routes.ts:42-52 | appends exactly one user, with the given name and email and the fresh id, at the end; replies 201 with an empty body |
| `App.Server.constructor` | src/routes/video.ts:30 | the video list (src/routes/video.ts:30) and the two user lists (src/routes/routes.ts:11, src/routes.ts:11) start empty, as three distinct objects |
| `App.Server.CreateUser` | src/routes/routes.ts:42-52 | a create through `src/routes/routes.ts` appends to its own list only; the other user list and the videos stay unchanged |
| `App.Server.CreateRootUser` | src/routes.ts:42-52 | a create through `src/routes.ts` appends to its own list only; the other user list and the videos stay unchanged |
| `App.Server.UploadMyClip` | src/routes/video.ts:127-151 | uploading `My Clip` replies 201 with an upload URL ending in the new id; get-by-id of that id returns the title, the user id, `my-clip.mp4` and `video/mp4` |

## Left out

- Route registration, `reply.status(...).send(...)` and the async wrappers are left out. Each handler is a method returning a status and a body.
- Response-schema validation is left out. So is its rejection of a generated `duration` or `fileSize` of 0, which `positive()` in the response schema would refuse.
- UUID syntax is not modelled, for the `id` and `userId` parameters and for generated ids: any string is accepted. For the list route's `userId` this admits the empty string, which the code's truthiness test treats as absent; the model follows the code there.
- E-mail syntax (`z.email()`) is not modelled. `Users.UserRegistry.Create` accepts any string as the email.
- `z.coerce.number()`: fractional or non-numeric `limit`/`offset` values are not modelled. Both are naturals, and `offset` is non-negative by type.
- Title length: Zod counts UTF-16 code units, while the model counts Unicode scalar values. They differ only for characters outside the Basic Multilingual Plane.
- `Slug.LowerChar`: lowercases only the ASCII letters `A`..`Z`. Full Unicode `toLowerCase`, which can change other letters and even the length, is left out. The whitespace class is ECMAScript's exact `\s` set.
- `randomUUID()`, `Math.random()`, `Math.floor` and `new Date()` are left out as computations: their results are parameters. The URL and thumbnail strings are built from two of those UUIDs.
- Upload does not check that the generated id is new, and neither does the source. Round-trip properties are stated for an id not already stored.
- Unknown keys in the update body are stripped by the body schema. So the patch type carries only the optional `title`.
- Concurrency: none. Handlers run one at a time on a single-threaded event loop.
