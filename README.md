# Clyq feed service and client base URL, modelled in Dafny

Clyq is a mobile campus-events app with a small Express backend. This project models the
two parts of it that hold logic:

- **The backend's feed service** (`backend.dfy`, module `Backend`). It holds two fixed
  event lists (trending and upcoming) and a process-wide list of posts, newest first.
  `GET` routes return these lists as they are. `POST /api/posts` refuses a falsy `content`
  with status 400 and `"Content is required"`. Otherwise it builds a post with id
  `posts.length + 1`, author `"You"` and 0 likes, puts it at the front of the list and
  returns it with status 201. The list is the field `posts` of class `FeedStore`. The
  create handler is the method `FeedStore.CreatePost`, which changes that field in place.
  The pure function `Create` specifies it. The invariant `WellFormed` says that the ids of
  n posts are exactly 1..n, each once, and that every content is non-empty. It holds for
  the seed, and every create keeps it, so the id `length + 1` is always unused.
- **The client's base-URL derivation** (`config.dfy`, module `ClientConfig`).
  `getLocalHost` turns the Expo host URI and the platform tag into `http://<host>:4000`.
  It takes the part of a non-empty host URI before its first colon. Without a host URI it
  uses `10.0.2.2` on Android and `localhost` on every other platform. The `endpoints`
  table appends the backend's three route paths to that base. JavaScript's
  `split(":")` is modelled as `Split`, whose contract says it inverts `Join`.
  `.shift()` takes the first piece.

`common.dfy` holds `Option` (absent, or JavaScript `undefined`/`null`) and `Truthy`, the
JavaScript truthiness of an optional string.

## Model

| member | source | states |
|---|---|---|
| Backend.Create | backend/index.js:78-94 | A falsy `content` gives `BadRequest("Content is required")` with status 400 and the same list. A truthy one gives status 201 and the post `{id: length+1, content, author "You", likes 0}`. That post becomes the new head of the list, and the old list follows it unchanged |
| Backend.FeedStore.CreatePost | backend/index.js:78-94 | The in-place handler: its reply and new `posts` are exactly what `Create` gives for the old list. It keeps the id invariant, and a created post's id differs from every older post's id |
| Backend.FeedStore.constructor | backend/index.js:55-70 | The store starts with the two seed posts (ids 1 and 2) and satisfies the invariant |
| Backend.FeedStore.GetTrending | backend/index.js:42-46 | Returns status 200 and the fixed trending list, and changes no state |
| Backend.FeedStore.GetUpcoming | backend/index.js:48-52 | Returns status 200 and the fixed upcoming list, and changes no state |
| Backend.FeedStore.GetPosts | backend/index.js:72-75 | Returns status 200 and the stored post list as is, newest first, and changes no state |
| Backend.SeedPosts | backend/index.js:55-70 | The seed list has two posts with ids 1 and 2. It satisfies the invariant: ids a permutation of 1..2, contents non-empty |
| Backend.CreatePreservesWellFormed | backend/index.js:84-92 | Every create, accepted or refused, keeps the invariant: ids a permutation of 1..n, contents non-empty |
| Backend.IdsInRange | backend/index.js:85 | Under the invariant, every id lies in 1..length |
| Backend.NextIdIsFresh | backend/index.js:85 | Under the invariant, the id `length + 1` picked for a new post is not held by any stored post |
| Backend.IdsAreDistinct | backend/index.js:85-92 | Under the invariant, no two stored posts share an id |
| Backend.IdsCoverRange | backend/index.js:85-92 | Under the invariant, each of 1..length is the id of some stored post |
| Backend.IdRangeCount | backend/index.js:85 | The reference id set 1..n holds each of 1..n exactly once and nothing else |
| Backend.WhitespaceContentAccepted | backend/index.js:80 | The check is truthiness only: a non-empty all-space content is accepted and stored verbatim |
| Backend.CreateKeepsOldPosts | backend/index.js:92 | After any create the list has grown by 0 or 1 at the front, and the old posts form its tail in their old order |
| Backend.HelloScenario | backend/index.js:55-94 | From the seed, posting "hello" returns post 3 by "You" with 0 likes and status 201. A following `GET /api/posts` lists 3 posts with that one first, then the seed |
| Backend.EmptyBodyScenario | backend/index.js:78-82 | From the seed, a body without `content` returns status 400 and "Content is required", and the list stays at its two seed posts |
| ClientConfig.Split | clyq/src/utils/config.js:6 | `split(sep)` returns at least one piece, no piece contains the separator, and joining the pieces with the separator gives back the input |
| ClientConfig.SplitWithoutSeparator | clyq/src/utils/config.js:6 | A string without the separator splits into itself alone |
| ClientConfig.SplitAtOnlySeparator | clyq/src/utils/config.js:6 | A string with exactly one separator splits into the text before it and the text after it |
| ClientConfig.JoinHead | clyq/src/utils/config.js:6 | The first piece is a prefix of the joined string, and the separator follows it when there is more |
| ClientConfig.HostSegment | clyq/src/utils/config.js:6 | `hostUri.split(":").shift()` is the longest colon-free prefix of `hostUri`. It contains no colon, and a colon follows it unless it is the whole string. With no colon in `hostUri` it is all of `hostUri` |
| ClientConfig.UrlOfHost | clyq/src/utils/config.js:6-13 | `http://<host>:4000` with a colon-free host starts with `http://` and ends with `:4000`. Splitting its authority at ':' gives back the host and "4000" |
| ClientConfig.GetLocalHost | clyq/src/utils/config.js:4-14 | A non-empty host URI gives `http://` + its segment before the first colon + `:4000`, on any platform. Otherwise "android" gives `http://10.0.2.2:4000` and any other platform `http://localhost:4000`. Every result starts with `http://` and ends with `:4000` |
| ClientConfig.BaseUrlShape | clyq/src/utils/config.js:4-14 | Every result of `getLocalHost` is `http://<host>:4000` with a colon-free host. Splitting its authority at ':' gives back exactly that host and "4000" |
| ClientConfig.EndpointsFor | clyq/src/utils/config.js:18-22 | Each endpoint is the base URL followed by the path the backend serves it at: `/api/events/trending`, `/api/events/upcoming` or `/api/posts`. The three endpoints are distinct |
| ClientConfig.EndpointsTargetBackend | clyq/src/utils/config.js:16-22 | The derived endpoints are `http://<host>:4000<route>` for the host `getLocalHost` chose, and that host contains no colon |

## Left out

- Express setup, routing, `cors()`, JSON body parsing, `app.listen` and its console message (backend/index.js:1-9, 96-98) are HTTP and I/O plumbing over libraries. The request body is an already-parsed optional `content`, and a reply is a status plus a body value.
- Routing is not modelled. The constants `Backend.TrendingRoute`, `Backend.UpcomingRoute` and `Backend.PostsRoute` copy the literal paths registered at backend/index.js:43, 49, 73 and 78. Each handler's doc comment names the constant it serves, but no routing table links the two.
- The liveness route `GET /` (backend/index.js:38-40) returns a constant message and touches no state. It is not modelled.
- Timestamps come from the wall clock (`new Date().toISOString()`, `Date.now()`; backend/index.js:60, 67, 88). Here they are opaque strings the caller passes in, and nothing is said about their values.
- `process.env.PORT` and `dotenv` (backend/index.js:3, 6) are environment reads. The client side fixes the port at 4000 regardless.
- `expo-constants` and `react-native`'s `Platform` (clyq/src/utils/config.js:1-2) are runtime objects. `Constants.expoConfig?.hostUri` and `Platform.OS` are parameters. A missing `expoConfig` and a missing `hostUri` are both `None`.
- `API_BASE_URL` is computed once at module load (clyq/src/utils/config.js:16). Here it is `GetLocalHost` applied to the parameters.
- Only string or absent `content` is modelled. JavaScript falsiness of non-string values (`0`, `false`) and JSON serialisation are not captured.
- There is no concurrency: each handler runs to completion, so one sequential method per request is faithful.
