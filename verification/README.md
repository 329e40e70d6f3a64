# Library reading-progress client, modelled in Dafny

This project models the client-side core of a library web application. Readers page through
books, and their reading progress is kept in sync. It covers five parts of the source:

- **The reading-progress synchroniser** (`ReadingService`). It caches every progress record in
  the browser's `localStorage` under `reading_progress_<bookId>`. When a user identifier sits
  in the `user_id` slot, it also writes to the remote progress store and prefers that store on
  reads.
- **The reader page** (`ReadBook`). It loads a book and falls back to five default pages when
  the book has no content. It restores the saved page and turns pages from buttons or the
  arrow keys. After every page that actually changes, it hands the synchroniser a record with
  the percentage read.
- **The session service** (`authService`). It derives a user from a token's claims, and stores
  the token and that user on login and registration. It lazily fills the stored user in
  `getUser`, clears the whole store on logout, and checks token expiry.
- **The catalogue page** (`BookList`). It builds the request filter from the genre and author
  selections, and lists each genre and author once in first-seen order. It turns the
  synchroniser's records into percentages and decides when a card offers "Continue Reading".
- **The registration form** (`Register`). It handles field and role updates, the
  password-confirmation and admin-secret checks, and the credentials it submits.

`localStorage` is one shared `Storage.Store`: a class whose `items` map the methods update in
place. The synchroniser and the session service both hold the same store. So a logout, which
empties it, is visible to the synchroniser (`SessionScenarios.LogoutForgetsProgress`).

The remote progress store is not modelled as a server. A remote write, delete or logout is
represented by the request it sends; whether it throws changes nothing the client keeps, so
its outcome is not an input. A remote read's outcome is a parameter, `RemoteRead`: the list
could not be fetched, was read whole, or breaks after a prefix.

Other inputs are parameters too:
- The clock is a `now: Time` in milliseconds.
- Token decoding is an abstract function `string -> Option<Claims>`.
- The order in which `localStorage` enumerates its keys is a parameter `order`.

Four behaviours of the code are worth knowing:
- **The remote list and the cache can mix.** `getAllProgress` can return a map built from both
  sources. Its `forEach` fills the map in place, and an exception part-way through falls
  through to the cache scan, which writes over the same map (`Reading.PartialRemoteFailureMerges`).
- **The percentage comes from the caller.** The synchroniser does not compute it: it stores
  the caller's record and only recomputes `status` and `lastReadAt`.
- **Remote records are always in progress.** A record rebuilt from a remote entry has status
  in progress even when the book was finished.
- **The session service never enables the remote branch.** Users derived from a token never
  carry an `id` (`Auth.ParseUserData`). The authentication context writes `user_id` only from a
  user's `id` (src/context/AuthContext.tsx:24-26 and 33-38). So login, registration and
  `getUser`, and the registration page and the authentication context that use them, never fill
  the slot (`SessionScenarios.LoginLeavesSyncLocal`). Whether another page (the login page, or a
  profile fetched from the server) hands the context a user with an id is outside this model.

The arrow keys follow the listener's own view of the book. The listener is registered again only
when the page changes, and it keeps the book of the render that registered it, which at mount is
no book. When loading leaves the page where it was, the arrow keys therefore do nothing until a
button turns the page (`ReadBookPage.ArrowKeysIdleAfterLoad`).

## Model

| member | source | states |
|---|---|---|
| Strings.IndexOf | src/services/ReadingService.ts:112 | the result is the first position where the pattern occurs, and none when it occurs nowhere |
| Strings.RemoveFirst | src/services/ReadingService.ts:112 | `replace(str, '')` leaves the text unchanged when the pattern does not occur; otherwise putting the pattern back at its first position gives the original text |
| Strings.RemoveFirstOfPrefixed | src/services/ReadingService.ts:112 | removing a prefix that was prepended gives the rest back |
| Strings.StartsWithAppend | src/services/ReadingService.ts:111 | a key built as prefix plus rest starts with the prefix |
| Strings.BeforeFirst | src/services/authService.ts:144 | `split(c)[0]` is a prefix free of `c`; it stops at the first `c`, and it is the whole string when `c` is absent |
| Storage.Store.TextAt | src/services/authService.ts:89-91 | `getItem` of a raw-string key is present exactly when a string is stored there, and is that string |
| Reading.ProgressKey | src/services/ReadingService.ts:17-19 | a cache key starts with `reading_progress_`, and removing that prefix gives the book back |
| Reading.ProgressKeyInjective | src/services/ReadingService.ts:17-19 | different books never share a cache key |
| Reading.Stamped | src/services/ReadingService.ts:37-41 | the cached record keeps the caller's fields and has `lastReadAt` set to now; status is completed exactly when the current page equals the total pages |
| Reading.FromRemote | src/services/ReadingService.ts:63-70 | a remote entry becomes a record with `percentageRead` as progress and its time as last read; the status is always in progress |
| Reading.BookIdOf | src/services/ReadingService.ts:112 | the book a key stands for: the rest after `reading_progress_` when the key starts with it, the whole key when the prefix occurs nowhere |
| Reading.FindRemote | src/services/ReadingService.ts:61 | `find` picks the first entry for the book, or none when no entry matches |
| Reading.RemoteHit | src/services/ReadingService.ts:57-71 | a remote entry is used exactly when there is a user, the list can be read, and some entry is for the book; it is the first such entry |
| Reading.PutAll | src/services/ReadingService.ts:92-101 | the remote `forEach` adds exactly the listed books to the map |
| Reading.PutAllKeeps | src/services/ReadingService.ts:92-101 | books not in the list keep their earlier entry |
| Reading.PutAllLastWins | src/services/ReadingService.ts:92-101 | a book listed more than once ends with its last entry |
| Reading.ScanInto | src/services/ReadingService.ts:109-118 | the cache loop adds exactly the books of keys under `reading_progress` that hold a record |
| Reading.ScanKeeps | src/services/ReadingService.ts:109-118 | books the scan does not meet keep their earlier entry |
| Reading.ScanLastWins | src/services/ReadingService.ts:109-118 | a book met at several keys ends with the record of the last such key |
| Reading.SavedKeyForm | src/services/ReadingService.ts:112 | a key of the saved form is the cache key of the book the scan extracts from it |
| Reading.ScanOfSavedCache | src/services/ReadingService.ts:108-118 | when the cache holds only keys written by `saveProgress`, the scan yields exactly the saved books, each with its cached record, whatever the key order |
| Reading.PartialRemoteFailureMerges | src/services/ReadingService.ts:86-118 | a remote list that breaks part-way leaves a map whose books are the listed ones plus the cached ones |
| Reading.ReadingService.SessionUser | src/services/ReadingService.ts:24-25 | a user exists exactly when `user_id` holds a non-empty string |
| Reading.ReadingService.Cached | src/services/ReadingService.ts:78-80 | the cache fallback finds a record exactly when the book's key holds one, and returns that record |
| Reading.ReadingService.SaveProgress | src/services/ReadingService.ts:21-52 | the record is posted exactly when there is a user; the cache entry for the book becomes the stamped record whether or not the post fails, and nothing else changes |
| Reading.ReadingService.GetProgress | src/services/ReadingService.ts:54-81 | the first remote entry for the book wins; with no user, a failed read or no match, the cached record or none |
| Reading.ReadingService.GetAllProgress | src/services/ReadingService.ts:83-121 | with a user and a readable list, the list as a map; after a partial read, the cache scan over the partial map; otherwise the cache scan alone |
| Reading.ReadingService.ClearProgress | src/services/ReadingService.ts:123-137 | the delete goes out exactly when there is a user; the book's cache entry is removed in every case, and nothing else changes |
| ReadingScenarios.SaveThenRead | src/services/ReadingService.ts:21-81 | with no user or an unreachable remote store, reading after a save returns the saved record |
| ReadingScenarios.ClearThenRead | src/services/ReadingService.ts:54-137 | with no user, reading after a clear returns nothing |
| ReadingScenarios.SaveTwice | src/services/ReadingService.ts:21-52 | saving the same record twice at the same instant is idempotent |
| ReadBookPage.KeyDirection | src/pages/ReadBook.tsx:74-80 | the left arrow turns back and the right arrow forward; every other key does nothing |
| ReadBookPage.Turn | src/pages/ReadBook.tsx:89-94 | the page moves back by one exactly when it is above 1 and forward by one exactly when it is below pages, and otherwise stays; a page in 1..pages stays in 1..pages |
| ReadBookPage.SaveArgs | src/pages/ReadBook.tsx:106-111 | the record carries the book, the page and the page count, with a percentage equal to page / pages × 100 |
| ReadBookPage.SavedPageStatus | src/pages/ReadBook.tsx:106-111 | once stamped by the synchroniser, the last page is cached as 100 % and completed; an earlier page as in progress, strictly between 0 and 100 % |
| ReadBookPage.ContentOrDefault | src/pages/ReadBook.tsx:53-55 | a missing or empty content is replaced by the default pages; the content is never empty |
| ReadBookPage.RestoredPage | src/pages/ReadBook.tsx:61 | a restored page of 0 becomes 1; any other page is kept |
| ReadBookPage.Reader.constructor | src/pages/ReadBook.tsx:33-36 | the reader starts on page 1, loading, with no book, and the keyboard listener sees no book |
| ReadBookPage.Reader.LoadBook | src/pages/ReadBook.tsx:46-84 | without an id nothing happens; otherwise the content is the fetched content or the default, and the page is the restored one when progress is found; the keyboard listener sees the loaded content exactly when the page changed |
| ReadBookPage.Reader.SaveRequest | src/pages/ReadBook.tsx:102-111 | a record is produced exactly when there is an id and the handler's render saw content, and it is the record for that content's length |
| ReadBookPage.Reader.ChangePage | src/pages/ReadBook.tsx:73-100 | with the content a render saw, the page becomes the guarded turn; a record is saved exactly when the page changed and there is an id; a changed page re-registers the listener with the current content |
| ReadBookPage.Reader.HandlePageChange | src/pages/ReadBook.tsx:86-100 | from the buttons: no content, no move; otherwise the page becomes the guarded turn; a record for the current content is saved exactly when the page changed and there is an id |
| ReadBookPage.Reader.HandleKeyPress | src/pages/ReadBook.tsx:73-100 | an arrow key turns the page as `handlePageChange` does over the content the listener saw, and saves the record for that content; other keys, or a listener that saw no book, change nothing |
| ReadBookPage.ArrowKeysIdleAfterLoad | src/pages/ReadBook.tsx:46-100 | after a load that keeps the reader on page 1, an arrow key leaves it on page 1 and saves nothing |
| ReadBookPage.TurnAndSave | src/pages/ReadBook.tsx:86-111 | a turn that reaches the last page leaves that book cached as 100 % and completed; a turn that does not move leaves the store unchanged |
| Auth.DerivedRole | src/services/authService.ts:143 | the role claim with its first `ROLE_` removed; `USER` when the claim is missing or empties out |
| Auth.PrefixedRoleClaim | src/services/authService.ts:143 | a claim `ROLE_x` yields `x` |
| Auth.ParseUserData | src/services/authService.ts:138-150 | parsing succeeds exactly when the token decodes and has a name or a subject; the user's email is the subject, it has no id, its name is the name claim or the subject's part before `@`; every failure is `Invalid token format` |
| Auth.NameFromSubject | src/services/authService.ts:144 | with no name claim, the subject `local@domain` gives the name `local` |
| Auth.AuthService.Token | src/services/authService.ts:89-91 | the token is present exactly when the token key holds a string, and is that string |
| Auth.AuthService.Unexpired | src/services/authService.ts:99-100 | `exp > now / 1000` holds exactly when the expiry exists and `exp × 1000 > now` in milliseconds |
| Auth.AuthService.IsAuthenticated | src/services/authService.ts:93-105 | authenticated exactly when a non-empty token decodes and its expiry in seconds lies after now / 1000 |
| Auth.AuthService.StoreSession | src/services/authService.ts:40-44 | with a truthy token, the token is stored, then the derived user when the token parses; a parse failure is reported after the token is stored |
| Auth.AuthService.Login | src/services/authService.ts:32-50 | a thrown request changes nothing and is re-thrown; otherwise the store holds the session, and the call fails exactly when a truthy token does not parse |
| Auth.AuthService.Register | src/services/authService.ts:52-70 | the same storage effects and errors as login |
| Auth.AuthService.Logout | src/services/authService.ts:72-87 | the remote logout is attempted exactly when a token is stored; the store is empty afterwards whatever happens |
| Auth.AuthService.GetUser | src/services/authService.ts:119-136 | the stored user if any; else the user parsed from a truthy token, which is then stored; else none with the store unchanged |
| Auth.GetUserTwice | src/services/authService.ts:119-136 | a second `getUser` returns what the first returned, and a user it returns is the one left in the store |
| Auth.ExpiryIsFinal | src/services/authService.ts:93-105 | a session authenticated at some time is authenticated at every earlier time |
| Auth.LogoutEndsSession | src/services/authService.ts:72-105 | after logout nobody is authenticated |
| Auth.LoginAuthenticates | src/services/authService.ts:32-105 | a login whose token decodes and has not expired leaves the session authenticated |
| SessionScenarios.LogoutForgetsProgress | src/services/authService.ts:80-83 | after logout the synchroniser has no user and finds no progress for any book |
| SessionScenarios.LoginLeavesSyncLocal | src/services/authService.ts:32-150 | from a store with no user id and no cached user that has an id, login and `getUser` leave `user_id` empty and return no user with an id |
| BookListPage.BuildFilters | src/components/BookList/BookList.tsx:42-45 | a filter member is present exactly when its selection is non-empty, and then equals it |
| BookListPage.Unique | src/components/BookList/BookList.tsx:56-57 | the de-duplicated list has the same elements as the input, each once |
| BookListPage.FirstIndex | src/components/BookList/BookList.tsx:56-57 | the first position of a value in the list |
| BookListPage.FirstIndexOfExtension | src/components/BookList/BookList.tsx:56-57 | appending a value does not move an earlier value's first position |
| BookListPage.UniqueKeepsFirstOccurrenceOrder | src/components/BookList/BookList.tsx:56-57 | genres and authors are listed in the order of their first appearance |
| BookListPage.GenresOf | src/components/BookList/BookList.tsx:56 | the books' genres, in book order |
| BookListPage.AuthorsOf | src/components/BookList/BookList.tsx:57 | the books' authors, in book order |
| BookListPage.BuildProgressMap | src/components/BookList/BookList.tsx:77-80 | the percentage map has exactly the books of the progress map, each with its record's percentage |
| BookListPage.ContinueReading | src/components/BookList/BookList.tsx:188-235 | a card shows its progress bar and "Continue Reading" exactly when the book's percentage is present and non-zero |
| BookListPage.SavedPageShowsContinue | src/components/BookList/BookList.tsx:235 | a book whose percentage the reader computed for a page in range shows "Continue Reading" |
| BookListPage.BookList.constructor | src/components/BookList/BookList.tsx:28-35 | empty lists, empty selections, no progress, loading and no error |
| BookListPage.BookList.LoadBooks | src/components/BookList/BookList.tsx:38-68 | the request carries the filters; an array replaces books, genres and authors; a non-array or thrown error sets the error and empties the books |
| BookListPage.BookList.LoadProgress | src/components/BookList/BookList.tsx:74-85 | the shown percentages are exactly those of the stored records |
| BookListPage.BookList.HandleGenreChange | src/components/BookList/BookList.tsx:37-96 | the genre selection changes, the reload's filters are built from it and the unchanged author, and the list, choices and error follow the reply as in `loadBooks` |
| BookListPage.BookList.HandleAuthorChange | src/components/BookList/BookList.tsx:37-96 | the author selection changes, the reload's filters are built from it and the unchanged genre, and the list, choices and error follow the reply as in `loadBooks` |
| RegisterPage.WithField | src/pages/Register.tsx:36-39 | only the named field takes the new value |
| RegisterPage.AdminSecretOk | src/pages/Register.tsx:57-68 | validation fails exactly for an admin whose key is not `admin123` |
| RegisterPage.PayloadFor | src/pages/Register.tsx:83-89 | the credentials carry the form's name, email, password and role, and the secret key exactly when the role is admin |
| RegisterPage.FailureMessage | src/pages/Register.tsx:101 | the server's message when it sent a non-empty one, else the generic failure text |
| RegisterPage.RegisterForm.constructor | src/pages/Register.tsx:23-32 | an empty form with the user role and no errors |
| RegisterPage.RegisterForm.HandleInputChange | src/pages/Register.tsx:34-45 | the field changes; typing in the secret key clears its error |
| RegisterPage.RegisterForm.HandleRoleChange | src/pages/Register.tsx:47-55 | the role changes and the secret-key error is cleared |
| RegisterPage.RegisterForm.ValidateAdminSecretKey | src/pages/Register.tsx:57-68 | the result is the admin-secret check, and a failure sets the secret-key error |
| RegisterPage.RegisterForm.HandleSubmit | src/pages/Register.tsx:70-103 | mismatched passwords, then a wrong admin key, stop the submit with their errors; otherwise the payload is sent, success navigates, and a failure shows its message |

## Left out

- JSON serialisation is not modelled. Stored values are the records they serialise, and every
  writer respects the key discipline `Storage.Fits`. So a value that fails `JSON.parse`, or a
  value of the wrong kind under an application key, is not modelled.
- Encryption of credentials and the HTTP client (`api.ts`, `encryption.ts`) are not part of this
  model. A request is represented by its body (`PostBody`, `DeleteRequest`, `RegisterPayload`).
  A remote read's outcome is a parameter; the outcome of a remote write, delete or logout is
  not, because the client does the same whichever way it ends.
- JWT decoding is an abstract function from token to claims. A decode that throws is `None`.
- Asynchrony and interleaving are not modelled: each operation runs to completion. React state
  updates are immediate field writes, and the effects that re-run `loadBooks` after a selection
  change are modelled as direct calls.
- Numbers are mathematical reals and integers, not IEEE doubles. The percentage `page / pages *
  100`, and the `exp > now / 1000` comparison, are exact.
- Dates are the time `now` in milliseconds, not `Date` objects or ISO strings. The two `new Date()`
  calls in `saveProgress` are taken to return the same instant.
- `localStorage`'s key enumeration is a parameter listing every key once. Its actual order is
  not modelled.
- The default book content is five pages. Their prose is abbreviated to the chapter headings.
- The keyboard listener is modelled by the content it saw. The listener re-registered after a
  page change is taken to see the content current at that change; the source registers it
  after the render that follows, which sees the same content.
- Reading.ReadingService.GetAllProgress: a remote list that is not an array, which makes
  `forEach` throw before the first entry, is `ReadBrokenAfter([])`. An element that cannot be
  read is modelled only as the point where the list breaks.
- RegisterPage.RegisterForm.HandleSubmit: what happens after a successful registration with a
  token is not modelled. The page then reads `getUser` and calls the authentication context's
  `login`. The authentication context (src/context/AuthContext.tsx) is not part of this model
  beyond the fact that it writes `user_id` only from a user's id.
- src/pages/Login.tsx and the user profile request in `api.ts` are not part of this model, so
  whether they hand the authentication context a user with an id is not modelled.
- Navigation, routing, the exit dialog, book covers and all rendering are not modelled, apart
  from the "Continue Reading" condition.
- The `Authorization` header reset in `logout` and all console logging are not modelled.
- The book, progress and user types are used only for their shape (`Types`).
