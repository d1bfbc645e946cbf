# Notes client: note cache, request pipeline and session, in Dafny

This project models the client-side core of a note-taking web front end
(React). The core has three parts:

- **The dashboard's note state** (`src/pages/Dashboard.jsx`). This is the
  cached note list for the selected filter, the search term, and the create
  and edit forms with their shared tag input. The handlers change this state:
  fetch, create, update, delete, pin/unpin, archive/unarchive, add tag and
  remove tag.
- **The HTTP client** (`src/services/api.js`). Each typed operation maps to
  a fixed method, path, query and body. The request interceptor attaches
  `Authorization: Bearer <token>` (the credential form of section 2.1 of
  RFC 6750). The response interceptor removes the stored token on any 401
  and still rejects the error to the caller. The shared-note fetch bypasses
  both interceptors.
- **The auth provider** (`src/contexts/AuthContext.jsx`). It restores the
  user from the stored token at start-up, and it handles login (storing the
  access token), sign-up and logout. It publishes `isAuthenticated` and
  guards `useAuth`.

Modules, one per concern:

| file | module | what |
|---|---|---|
| `wrappers.dfy` | `Wrappers` | `Option`, `Result` |
| `seqs.dfy` | `Seqs` | `filter` and `map` on sequences, subsequence, no-duplicates |
| `text.dfy` | `Text` | ASCII `trim`, `toLowerCase`, `includes`, prefix/suffix tests |
| `notes.dfy` | `Notes` | the note entity and the dashboard's pure derivations: filter parameters, search, tags, cache edits |
| `session.dfy` | `Session` | `localStorage` reduced to the `token` key (a class, shared by the client and the provider) |
| `api.dfy` | `Api` | operations, request builder, routing, interceptors, the `Client` class with its log of sent requests |
| `auth.dfy` | `Auth` | the `AuthProvider` class, the error-message fallback, `useAuth` |
| `dashboard.dfy` | `Dashboard` | the `Dashboard` class and its handlers |

How the environment is modelled:

- Each handler runs as one atomic, sequential step.
- The server's answer to each call is a method parameter of type
  `Result<T, HttpError>`. The delete confirmation is a `confirmed: bool`
  parameter.
- The `Client` keeps `sent`, the ordered list of every request it put on the
  wire together with its Authorization header. So "no request is made" and
  "exactly one request, no re-fetch" are statements about `sent`.
- `Api.Step` and `Api.Trace` describe the pipeline as pure functions of the
  stored token. Every method that performs a call states its effect through
  `Step`. So `Api.SilentAfterUnauthorized` ("no credentials after a 401")
  applies to any sequence of handler calls without a login in between.
- The `Dashboard` class keeps one invariant, `Valid()`: the create draft's
  tags have no duplicate and no empty or whitespace-only tag. The constructor
  establishes it and every handler preserves it. The title and body inputs
  never touch the tags, the draft is reset to an empty list after a create,
  and only `addTag` and `removeTag` change the tags. The edit form is left
  out of the invariant because it starts from a server note, whose tags the
  client does not check.

Behaviours of the code that the model keeps:

- Login and sign-up go through the same client, so a 401 answer to them also
  clears the stored token. A failed login therefore leaves the stored token
  unchanged only when the status is not 401.
- Opening the create form does not close the edit form, and the reverse is
  also true: the code keeps both flags independent.
- Truthiness follows JavaScript. An empty stored token sends no header and
  restores no user at start-up. A note whose `archivedAt` is the empty string
  counts as not archived (`!!note.archivedAt`).
- A successful login stores whatever access token the server returned, even
  an empty one.
- The filter selector re-fetches only when the mode actually changes, as the
  effect's dependency list makes it.

## Model

| member | source | states |
|---|---|---|
| `Notes.FilterParams` | src/pages/Dashboard.jsx:39-51 | "pinned" gives `{pinned: true, archived: false}`; "archived" gives `{archived: true}` with no `pinned` key; every other mode gives `{archived: false}` |
| `Notes.RefreshedCacheInView` | src/pages/Dashboard.jsx:39-54 | if the server honours the query, every note of the refreshed cache belongs to the view: default view unarchived, pinned view pinned and unarchived, archived view archived |
| `Notes.FilteredNotes` | src/pages/Dashboard.jsx:169-173 | the search view is an order-preserving subsequence of the cache; a note is kept iff it matches, with every copy of a matching note kept and no copy of any other; an empty term keeps the whole cache |
| `Notes.MatchesIff` | src/pages/Dashboard.jsx:169-173 | a note matches iff the lower-cased term is a substring of the lower-cased title, body, or some tag |
| `Notes.SearchIgnoresCase` | src/pages/Dashboard.jsx:169-173 | two terms with the same lower-case form select the same notes |
| `Notes.AddTag` | src/pages/Dashboard.jsx:152-160 | the old list is kept as a prefix and grows by at most one tag, the trimmed input, exactly when the input is not blank and not yet a tag; the input is cleared exactly when a tag is added; a list free of duplicates and of empty or whitespace-only tags stays so |
| `Notes.RemoveTag` | src/pages/Dashboard.jsx:162-167 | every exact match goes; every copy of every other tag stays, in order |
| `Notes.RemoveTagKeepsWellFormed` | src/pages/Dashboard.jsx:162-167 | removing a tag keeps the tag-list invariant |
| `Notes.Payload` | src/pages/Dashboard.jsx:86-90 | an update sends the edited note's title, body and tags |
| `Notes.ReplaceById` | src/pages/Dashboard.jsx:92-94 | after an update the cache keeps its length and order; entries with the edited id become the server's note; the others are unchanged |
| `Notes.ReplaceKeepsIds` | src/pages/Dashboard.jsx:92-94 | when the server's note keeps its id, the cache's ids are unchanged, position by position |
| `Notes.RemoveById` | src/pages/Dashboard.jsx:107 | after a delete no entry has the id; every copy of every other entry stays, in its relative order |
| `Notes.RemoveAbsentId` | src/pages/Dashboard.jsx:107 | deleting an id the cache does not hold leaves the cache as it was |
| `Notes.DeleteUndoesCreate` | src/pages/Dashboard.jsx:70 | deleting a freshly created note (new id) gives back the cache from before the create |
| `Text.Trim` | src/pages/Dashboard.jsx:63 | trim gives the slice between a blank prefix and a blank suffix of the input, empty iff the input is blank, otherwise starting and ending with non-whitespace |
| `Text.TrimsToEmpty` | src/pages/Dashboard.jsx:63 | `!title.trim()` holds exactly when the title is empty or whitespace-only |
| `Text.ContainsIff` | src/pages/Dashboard.jsx:170-172 | `includes` holds iff the substring occurs at some index |
| `Text.Lower` | src/pages/Dashboard.jsx:170-172 | lower-casing keeps the length, folds each character, and leaves no upper-case letter |
| `Seqs.Filter` | src/pages/Dashboard.jsx:165 | `filter` keeps every copy of each element that passes and no copy of any other, never lengthening the list |
| `Seqs.FilterIsSubsequence` | src/pages/Dashboard.jsx:107 | `filter` keeps the relative order of what it keeps |
| `Seqs.Map` | src/pages/Dashboard.jsx:92 | `map` keeps the length and transforms each position |
| `Dashboard.Dashboard.constructor` | src/pages/Dashboard.jsx:21-28 | empty cache, loading, filter "all", forms closed, empty draft and tag input; the class invariant holds |
| `Dashboard.Dashboard.Visible` | src/pages/Dashboard.jsx:169-173 | the list on screen is a subsequence of the cache, all of it for an empty search |
| `Dashboard.Dashboard.FetchNotes` | src/pages/Dashboard.jsx:36-60 | one list request with the filter's parameters; success replaces the cache with exactly the items; failure keeps it; loading ends either way |
| `Dashboard.Dashboard.SelectFilter` | src/pages/Dashboard.jsx:32-34 | changing the filter re-fetches under the new mode; re-selecting the current one sends nothing |
| `Dashboard.Dashboard.SetSearchTerm` | src/pages/Dashboard.jsx:212 | the search box sets the term |
| `Dashboard.Dashboard.SetCreating` | src/pages/Dashboard.jsx:228 | the create form opens and closes |
| `Dashboard.Dashboard.SetNewNoteTitle` | src/pages/Dashboard.jsx:356 | the title input replaces the draft's title only; body and tags are kept, and the tags stay well-formed |
| `Dashboard.Dashboard.SetNewNoteBody` | src/pages/Dashboard.jsx:364 | the body input replaces the draft's body only; title and tags are kept, and the tags stay well-formed |
| `Dashboard.Dashboard.SetEditingNote` | src/pages/Dashboard.jsx:283 | the edit form opens on a copy of a note, or closes |
| `Dashboard.Dashboard.SetNewTag` | src/pages/Dashboard.jsx:374 | the tag input is set |
| `Dashboard.Dashboard.CreateNote` | src/pages/Dashboard.jsx:62-77 | a blank title sends nothing and changes nothing; otherwise one create request; success puts the new note first and resets and closes the form; failure changes no note or draft |
| `Dashboard.Dashboard.UpdateNote` | src/pages/Dashboard.jsx:79-100 | a blank title sends nothing; otherwise one update request for the edited id; success replaces the matching entries and closes the form; failure changes nothing |
| `Dashboard.Dashboard.DeleteNote` | src/pages/Dashboard.jsx:102-112 | unconfirmed: nothing sent; confirmed: exactly one delete request and no re-fetch; success removes the id from the cache |
| `Dashboard.Dashboard.TogglePin` | src/pages/Dashboard.jsx:114-126 | sends unpin iff the note is pinned, else pin; success is followed by a re-fetch of the current filter instead of a local flip; failure sends nothing more and keeps the cache |
| `Dashboard.Dashboard.ToggleArchive` | src/pages/Dashboard.jsx:128-140 | sends unarchive iff the note is archived, else archive; then the same re-fetch rule as pinning |
| `Dashboard.Dashboard.AddTagTo` | src/pages/Dashboard.jsx:152-160 | the chosen form's tags and the tag input become what `AddTag` gives; nothing else changes; the create draft's tags stay free of duplicates and blank tags |
| `Dashboard.Dashboard.RemoveTagFrom` | src/pages/Dashboard.jsx:162-167 | the chosen form's tags become what `RemoveTag` gives; the create draft's tags stay free of duplicates and blank tags |
| `Dashboard.PinToggle` | src/pages/Dashboard.jsx:291 | the pin button sends unpin exactly when the note is pinned |
| `Dashboard.ArchiveToggle` | src/pages/Dashboard.jsx:299 | the archive button sends unarchive exactly when `archivedAt` is truthy |
| `Api.Build` | src/services/api.js:33-54 | only the list operation carries a query (its own parameters, empty by default); only create and update carry the note; only login and sign-up carry form fields; only the three reads use GET |
| `Api.BuildRecognize` | src/services/api.js:33-54 | the endpoint table recovers every operation from its request (method, path, query, body) |
| `Api.BuildInjective` | src/services/api.js:33-54 | two different operations never send the same request |
| `Api.RecognizeToggle` | src/services/api.js:44-47 | pin, unpin, archive and unarchive requests (`/notes/<id>/<action>`) route back to the same action on the same id |
| `Api.Authorization` | src/services/api.js:13-18 | a header is set iff the stored token is truthy, and it is `Bearer ` followed by the token |
| `Api.AuthorizationCarriesToken` | src/services/api.js:13-18 | reading the header back as a bearer credential gives exactly the stored token |
| `Api.Step` | src/services/api.js:13-31 | a pipeline call carries the header iff the token is truthy; the token is cleared iff the call was answered 401 (or was already absent); the shared-note fetch carries no header and never clears it |
| `Api.TokenAfter` | src/services/api.js:24-28 | the pipeline never stores a token: afterwards it is the old token or none |
| `Api.Trace` | src/services/api.js:13-31 | one wire request per call, each the operation's own request |
| `Api.SilentAfterUnauthorized` | src/services/api.js:14-16 | after a 401 from a pipeline call, no later call carries an Authorization header and the token stays cleared |
| `Api.NoTokenNoCredentials` | src/services/api.js:14-16 | with no token stored, no call carries credentials |
| `Api.Client.Authorize` | src/services/api.js:13-19 | the request interceptor attaches `Bearer <token>` iff a truthy token is stored |
| `Api.Client.Settle` | src/services/api.js:22-31 | the response interceptor passes successes through, still rejects every error, and removes the token exactly on 401 |
| `Api.Client.Perform` | src/services/api.js:5-54 | a call appends its wire request to the log and leaves the token as `Step` says; the caller gets the server's outcome unchanged |
| `Api.ErrorOf` | src/contexts/AuthContext.jsx:34 | the failure an outcome carries, present iff the call failed |
| `Auth.ErrorMessage` | src/contexts/AuthContext.jsx:37 | the server's non-empty nested message when present, else the fallback |
| `Auth.UseAuth` | src/contexts/AuthContext.jsx:6-12 | fails with the fixed message iff no provider value is present, else returns it |
| `Auth.AuthProvider.constructor` | src/contexts/AuthContext.jsx:15-16 | no user, loading |
| `Auth.AuthProvider.Value` | src/contexts/AuthContext.jsx:59-66 | `isAuthenticated` holds iff there is a user |
| `Auth.AuthProvider.Init` | src/contexts/AuthContext.jsx:18-25 | a truthy stored token becomes the user; loading ends either way |
| `Auth.AuthProvider.Login` | src/contexts/AuthContext.jsx:27-40 | success stores the access token, makes it the user's and reports success; failure keeps the user and reports the server's message or "Login failed" |
| `Auth.AuthProvider.Signup` | src/contexts/AuthContext.jsx:42-52 | never touches the user or stores a token; failure reports the server's message or "Signup failed" |
| `Auth.AuthProvider.Logout` | src/contexts/AuthContext.jsx:54-57 | the stored token is removed, the user is cleared, and the provider no longer reports authenticated |

## Left out

- JSX layout, icons, styling and modal markup: presentation only.
- `formatDate`: it depends on `Date` parsing and locale formatting.
- `handleShareNote`: a pass-through to `createShareLink` followed by a
  clipboard write and a toast. The share operations themselves are modelled
  in `Api.Build`.
- Toasts, `window.confirm` (a boolean parameter instead), the clipboard, and
  the redirect to `/login` after a 401. The redirect reloads the page, so the
  provider's `user` is not cleared by the model on a 401; a reload re-runs
  `Init`.
- The transport (axios, base URL, JSON headers) and `localStorage` mechanics.
  A call's result is a parameter, and storage is one `Option<string>` field.
- Asynchronous interleaving and React scheduling. Examples: a re-fetch that
  is not awaited racing a later delete, and a handler that closes over a
  stale `notes`. Each handler is one atomic step.
- Full Unicode `trim` and `toLowerCase`. The model trims ASCII whitespace
  (space, tab, line feed, vertical tab, form feed, carriage return) and folds
  only `A`-`Z`.
- Malformed server payloads (missing `items`, `accessToken`, `title` or
  `body`). The answer of each call is typed, so the crashes such payloads
  would cause in the original are not modelled.
- `Dashboard.Dashboard.UpdateNote`: requires the edit form to be open. The
  original would throw on a closed form, but no button reaches it then.
- `Dashboard.Dashboard.AddTagTo` and `Dashboard.Dashboard.RemoveTagFrom`:
  require the edit form to be open when they act on it, for the same reason.
- `Api.BuildRecognize` and `Api.BuildInjective` work on the path as the
  client writes it. The client interpolates ids into `/notes/${id}` without
  escaping them, and the server then parses that path. The model does not
  capture how an id holding `/`, `?` or `..` makes the server see another
  endpoint.
