# Note-Service in Dafny

A model of the notes service: a FastAPI server that keeps a `notes` table and
a users table, and a Telegram bot that collects the same inputs in multi-step
dialogues and forwards them to the server. The model covers three parts.

- **Note routes** (`NoteApi`): the `notes` table is the class `NoteTable`,
  which holds a map from id to row and the next id to hand out. `Create`,
  `Read`, `Update` and `Delete` mirror the four route handlers. Each handler
  wraps its body in `except Exception`, and that handler also catches the 404
  the body raises for an unknown id, so an unknown id reaches the client as 500
  with the handler's generic detail. `Update` writes every field of the request,
  `None` included. The response model then refuses a row whose title or content
  is null. That check runs outside the handler's `try`, so the client gets a
  plain 500, but the row stays updated.
- **Credentials and tokens** (`UserApi`): bcrypt's `hash`/`verify` and
  `jwt.encode` are function parameters. `TokenClaims` is the copy-and-extend
  step of `create_access_token`. `AuthenticateUser` and `LoginForAccessToken`
  are the login decision. `UserTable.CreateUser` is registration. It stores
  only the hash.
- **Bot dialogues** (`Fsm` and one module per handler file): the chat's FSM
  context is the class `FsmContext`. It holds a state and a dictionary of
  collected answers. Each handler is a method on it. Results of calls to the
  API are parameters. `ParseTags` is the comma split of the tag step, with its
  split/join round trip. `OrNone` is the empty-to-`None` rule of the update
  dialogue.

Request bodies are checked as pydantic v1 checks them (the schemas use
`orm_mode` and `.dict()`). The module `Validation` models this over a JSON
datatype:
- an `Optional` field without a default may be missing and reads as `None`;
- a `str` field converts integers and booleans with Python's `str`;
- undeclared fields are ignored.

Time is an integer number of minutes passed in as `now`. Store failures are a
`StoreFault` parameter. A failure before the commit rolls back. A failure after
it, in `refresh`, keeps the change but still answers 500.

Several behaviours of the code differ from what a note service is usually
expected to do; the model follows the code:
- notes have no owner, and no route scopes by user;
- a missing note gives 500, not 404;
- an update overwrites every field rather than only the fields sent;
- there is no duplicate-username 409;
- there are no list or tag-search routes and no token validation.

## Model

| member | source | states |
|---|---|---|
| `Validation.StrField` | app/schemas/note.py:7-8 | a `str` field takes a string unchanged, converts booleans to "True"/"False" and an integer to its decimal form (a '-' for negatives, then digits with no leading zero whose value is the magnitude), and refuses null, lists and objects |
| `Validation.DigitsOfValue` | app/schemas/note.py:7-8 | the digits written for a natural number, read back as a decimal number, are that number |
| `Validation.StrItems` | app/schemas/note.py:9 | a `List[str]` is valid exactly when every item is; the result has one string per item, in order |
| `Validation.StrListField` | app/schemas/note.py:9 | only a JSON array is a list; a bare string is refused |
| `Validation.StrListRoundTrip` | app/schemas/note.py:9 | a list of strings sent as a JSON array validates back to the same list |
| `NoteSchemas.ParseNoteCreate` | app/schemas/note.py:6-9 | valid exactly when title and content are present and string-like and tags are absent, null or a list of strings; a missing `tags` gives `[]`, null gives `None`; on failure the error names title or content exactly when that field is bad |
| `NoteSchemas.NoteCreateTagsDefault` | app/schemas/note.py:9 | a body with only title and content gets `tags == []` |
| `NoteSchemas.NoteCreateRoundTrip` | app/schemas/note.py:6-9 | every `NoteCreate`, serialised with `.dict()`, validates back to itself |
| `NoteSchemas.ParseNoteUpdate` | app/schemas/note.py:12-15 | no field is required; each is `None` exactly when missing or null, and otherwise the validated value |
| `NoteSchemas.EmptyUpdateIsAllNone` | app/schemas/note.py:12-15 | the empty body is a valid update with all three fields `None` |
| `UserSchemas.ParseUserCreate` | app/schemas/user.py:4-10 | valid exactly when username and password are both present and string-like; `UserLogin` is the same type, so login bodies are checked identically |
| `UserSchemas.MissingPasswordRejected` | app/tests/test_user.py:24-30 | a body with a username and no password fails, and the error names only `password` |
| `UserSchemas.ExtraFieldIgnored` | app/schemas/user.py:4-6 | adding any undeclared field to a body does not change how it validates |
| `NoteApi.ToResponse` | app/schemas/note.py:18-27 | a row converts to a response exactly when its title and content are non-null; the response carries the row's id, title, content, tags and both timestamps, and nothing else |
| `NoteApi.Respond` | app/api/note.py:14 | a route's returned row reaches the client exactly when the `NoteResponse` model accepts it, as that response; otherwise the answer is a plain 500 "Internal Server Error", outside the route's own error handling |
| `NoteApi.CreatedRowReadsBack` | app/api/note.py:18-25 | a created row (`NewRow`: the request's fields and the two separate clock readings of line 19) reads back with the request's title, content and tags, `created_at` from the first reading and `updated_at` from the second; when the clock did not step back between them, `created_at <= updated_at` |
| `NoteApi.UpdateOverwritesAllFields` | app/api/note.py:58-60 | an update (`ApplyUpdate`, the `setattr` loop and the `updated_at` write) keeps id and `created_at`, sets `updated_at` to now, and keeps nothing else of the old row: two rows with the same id and creation time end up equal |
| `NoteApi.UpdateResponseValid` | app/api/note.py:58-64 | after an update the row answers 200 exactly when the update's title and content are both present; the body then holds the update's values |
| `NoteApi.UpdateIdempotent` | app/api/note.py:58-60 | applying the same update twice at the same instant equals applying it once |
| `NoteApi.NoteTable.constructor` | app/models/note.py:5-13 | a new table is empty and its first id is 1 |
| `NoteApi.NoteTable.Create` | app/api/note.py:14-28 | on success one new row under a previously unused id with the request's fields and the two clock readings as `created_at` and `updated_at`, and all other rows unchanged; any failure answers 500 with the creation-error detail; a failure after commit still leaves the row |
| `NoteApi.NoteTable.Read` | app/api/note.py:31-44 | answers 200 exactly when there is no fault, the id exists and its title and content are non-null; the body is that row; an unknown id or a fault gives 500 with the read-error detail, never 404; the table is not changed |
| `NoteApi.NoteTable.Update` | app/api/note.py:47-67 | on an existing id, writes title, content and tags from the update, `None` included, and `updated_at = now`, leaving every other row unchanged; an unknown id or a fault before commit leaves the table unchanged and answers 500 with the update-error detail |
| `NoteApi.NoteTable.Delete` | app/api/note.py:70-85 | succeeds exactly when there is no fault and the id exists; it then removes exactly that row and returns the success detail; otherwise the table is unchanged and the answer is 500 with the delete-error detail |
| `NoteApi.DeleteTwice` | app/api/note.py:74-85 | deleting an id twice: the first call succeeds, the second answers 500 |
| `UserApi.ExpiryMinutes` | app/api/user.py:33-36 | a present non-zero delta is used; `None` or zero falls back to the configured minutes |
| `UserApi.TokenClaims` | app/api/user.py:31-37 | the claims are the caller's claims plus `exp`; every other claim is copied unchanged; `exp = now + delta` for a truthy delta, otherwise `now + default` |
| `UserApi.CallerExpIgnored` | app/api/user.py:31-39 | for `CreateAccessToken`, which signs the `TokenClaims` with the configured key and algorithm: an `exp` already in the caller's claims has no effect on the encoded token |
| `UserApi.FindByUsername` | app/api/user.py:45-48 | finds nothing exactly when no row has the username; otherwise returns a row with that username, and no other row with that username has a lower id |
| `UserApi.AuthenticateUser` | app/api/user.py:42-55 | a lookup failure is the 500 outcome, and only then; otherwise `False` exactly when no row has the username or `verify` fails against the first row's hash; a returned user is exactly the first row the lookup finds (`FindByUsername`), has the username, is in the table and passes `verify` |
| `UserApi.LoginForAccessToken` | app/api/user.py:75-91 | 500 when the lookup fails; the same 401 and detail for an unknown username and for a wrong password; a token only for a stored user whose hash verifies, encoding exactly `user_id` and `exp = now + ACCESS_TOKEN_EXPIRE_MINUTES`; and whenever the first row with the username verifies, the answer is that token for its id |
| `UserApi.RegisterThenLogin` | app/api/user.py:58-91 | after registering a new username with a password that verifies against its own hash, logging in with that password returns the token for the new id |
| `UserApi.UserTable.CreateUser` | app/api/user.py:58-72 | on success one new row (`RegisteredRow`) with the username and `hash(password)`, never the plaintext, and the response echoes id and username; any failure answers 500 with the registration-error detail |
| `Fsm.FsmContext.SetState` | telegram_bot/handlers/create_note.py:29 | sets the state and keeps the collected data |
| `Fsm.FsmContext.UpdateData` | telegram_bot/handlers/create_note.py:35 | stores one key and keeps the state and every other key |
| `Fsm.FsmContext.Clear` | telegram_bot/handlers/create_note.py:73 | no state and no data remain |
| `CreateNoteDialogue.SplitOn` | telegram_bot/handlers/create_note.py:54 | a split has at least one piece and no piece contains the separator |
| `CreateNoteDialogue.JoinSplit` | telegram_bot/handlers/create_note.py:54 | joining the pieces of a split with the separator gives back the text |
| `CreateNoteDialogue.SplitCount` | telegram_bot/handlers/create_note.py:54 | a split has one piece more than the text has separators |
| `CreateNoteDialogue.SplitJoin` | telegram_bot/handlers/create_note.py:54 | splitting the join of separator-free pieces gives the pieces back |
| `CreateNoteDialogue.ParseTags` | telegram_bot/handlers/create_note.py:54 | missing or empty text gives `[]`; otherwise there is one untrimmed tag per comma plus one, empty tags included, and joining them with "," gives back the text |
| `CreateNoteDialogue.DraftAccepted` | telegram_bot/provider/provider_note.py:11-24 | a draft with title and content, serialised as the client sends it, validates on the server to the same title, content and tags |
| `CreateNoteDialogue.StartCreateNote` | telegram_bot/handlers/create_note.py:19-29 | with no user, replies "not authorised" and sets no state; with a user, asks for the title and enters `waiting_for_title`; data untouched |
| `CreateNoteDialogue.HandleTitle` | telegram_bot/handlers/create_note.py:33-37 | stores the text as `title` and moves to `waiting_for_content` |
| `CreateNoteDialogue.HandleContent` | telegram_bot/handlers/create_note.py:41-45 | stores the text as `content` and moves to `waiting_for_tags` |
| `CreateNoteDialogue.HandleTags` | telegram_bot/handlers/create_note.py:49-73 | sends a note built from the stored title, the stored content and `ParseTags(text)`; shows the created note or the failure; clears the state either way; with no user it raises before the call and the state is kept |
| `CreateNoteDialogue.CreateNoteConversation` | telegram_bot/handlers/create_note.py:19-73 | a whole signed-in dialogue sends the typed title and content and the parsed tags, answers, and ends with no state and no data |
| `UpdateNoteDialogue.OrNone` | telegram_bot/handlers/update_note.py:61-62 | `None` exactly for missing or empty text; any other text is kept |
| `UpdateNoteDialogue.BotUpdateClearsTags` | telegram_bot/handlers/update_note.py:64 | the bot's payload validates on the server as an update with `tags = None`, so the note's tags are erased; the server's answer is 200 exactly when both title and content were non-empty |
| `UpdateNoteDialogue.StartUpdateNote` | telegram_bot/handlers/update_note.py:19-31 | with no user, replies "not authorised" and sets no state; with a user, enters `waiting_for_note_id` |
| `UpdateNoteDialogue.HandleNoteId` | telegram_bot/handlers/update_note.py:35-41 | stores the raw text as `note_id` and moves to `waiting_for_title` |
| `UpdateNoteDialogue.HandleTitle` | telegram_bot/handlers/update_note.py:45-51 | stores the text as `title` and moves to `waiting_for_content` |
| `UpdateNoteDialogue.HandleContent` | telegram_bot/handlers/update_note.py:55-82 | sends the stored id with `OrNone` of the stored title and of the typed content, and never any tags; clears the state whatever the outcome; with no user it raises before the call and the state is kept |
| `RegisterDialogue.RegisterPayloadParsed` | telegram_bot/provider/provider_user.py:11-17 | the server accepts the bot's registration exactly when login and password are present, reads them unchanged, and ignores the chat id |
| `RegisterDialogue.HandlerRegister` | telegram_bot/handlers/register.py:21-31 | with no user, asks for the login and enters `waiting_for_login`; when signed in, replies "already authorised" and changes no state |
| `RegisterDialogue.HandleRegisterLogin` | telegram_bot/handlers/register.py:35-39 | stores the text as `login` and moves to `waiting_for_password` |
| `RegisterDialogue.HandleRegisterPassword` | telegram_bot/handlers/register.py:43-53 | calls registration with the stored login, the typed password and the sender's id; clears the state whether it succeeded or failed |
| `LoginDialogue.HandlerLogin` | telegram_bot/handlers/login.py:21-27 | with no user, asks for the login and enters `waiting_for_login`; when signed in, replies "already authorised" and changes no state |
| `LoginDialogue.HandleLoginLogin` | telegram_bot/handlers/login.py:31-35 | stores the text as `login` and moves to `waiting_for_password` |
| `LoginDialogue.HandleLoginPassword` | telegram_bot/handlers/login.py:39-49 | calls the link with the stored login, the typed password and the sender's id; clears the state whatever the result |
| `DeleteNoteDialogue.DeleteReply` | telegram_bot/handlers/delete_note.py:39-42 | the success reply exactly when the call returned true; both replies repeat the id as typed |
| `DeleteNoteDialogue.StartDeleteNote` | telegram_bot/handlers/delete_note.py:17-27 | with no user, replies "not authorised" and sets no state; with a user, enters `waiting_for_note_id` |
| `DeleteNoteDialogue.HandleNoteId` | telegram_bot/handlers/delete_note.py:31-44 | forwards the text verbatim to the delete call, replies by `DeleteReply`, and clears the state; with no user it raises before the call and the state is kept |
| `SearchNotesDialogue.SearchReply` | telegram_bot/handlers/search_notes.py:39-56 | "not found" exactly for a missing or empty result; otherwise the reported count equals the number of notes returned |
| `SearchNotesDialogue.StartSearchNotes` | telegram_bot/handlers/search_notes.py:17-29 | with no user, replies "not authorised" and sets no state; with a user, enters `waiting_for_tag` |
| `SearchNotesDialogue.HandleTag` | telegram_bot/handlers/search_notes.py:33-58 | forwards the text verbatim to the search call, replies by `SearchReply`, and clears the state; with no user it raises before the call and the state is kept |

## Left out

- Database plumbing: the engine, sessions and table creation are not modelled (app/database.py, app/main.py). Each route is one atomic step on a map.
- `NoteApi.NoteTable.Create` and `UserApi.UserTable.CreateUser` leave the id counter unchanged when they fail before the commit. A real database sequence may skip an id there. The model does not capture such gaps.
- The users table's own definition (models/user.py) is not part of this model, so no uniqueness of usernames is assumed. A uniqueness violation would be one more failure at commit, and so one more 500. `UserApi.FindByUsername` takes the lowest id among duplicates, where the query leaves the order to the database.
- bcrypt and JWT signing are foreign libraries. `hash`, `verify` and `encode` are function parameters. The salt, which makes two hashes of one password differ, is not modelled. The server never decodes or validates a token.
- The settings read from the environment at import time are a `Settings` value. A failing `int(...)` conversion at start-up is not modelled.
- The clock is a parameter in whole minutes. Sub-minute precision of `utcnow()` is not modelled.
- `async`/`await` is modelled as ordinary sequential calls. Concurrent requests are not modelled.
- Rate limiting (app/main.py) is not modelled. It is driven by a library.
- The API clients (telegram_bot/provider/provider_note.py, provider_user.py) do network I/O. Their results are parameters of the dialogue steps. Their bodies are modelled only in the payload lemmas `DraftAccepted`, `BotUpdateClearsTags` and `RegisterPayloadParsed`.
- telegram_bot/provider/models.py defines only `UserCreate` and `AccessTokenResponse`, so the bot's imports of `NoteCreate`, `NoteUpdate` and `NoteResponse` from it (telegram_bot/handlers/create_note.py:7, telegram_bot/provider/provider_note.py:5) fail when those modules are imported. The payload lemmas `DraftAccepted` and `BotUpdateClearsTags` assume these classes mirror app/schemas/note.py: `NoteCreate.dict()` sends exactly title, content and tags, and `NoteUpdate.dict(exclude_unset=True)` sends exactly the title and content the bot set. Any validation they would do before a request is sent is not modelled.
- The middleware's token lookup (telegram_bot/middleware.py) is not modelled. The user it finds is a parameter.
- Bot start-up and router order (telegram_bot/main.py) are not modelled. A command typed while another dialogue is waiting is not modelled. The bot has no `/cancel` handler.
- Message formatting (HTML, `strftime`), `/start` and `/get_all_notes` are not modelled. They answer without changing any state.
- The server's `note_id: int` path parameter is not modelled. A non-numeric id typed in the bot would be refused with 422 before any handler runs.
- JSON numbers with a fraction, and pydantic's error messages in the 422 body, are not modelled. Validation reports only the names of the failing fields.
- app/api/user.py has no `/add_telegram` or `/login_by_telegram_id` route, though the login dialogue and the middleware call them. The model keeps their answers as opaque results.
- Logging is not modelled.
