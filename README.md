# TinyApp: ownership-scoped short links, modelled in Dafny

TinyApp is a small URL shortener. Registered users create short ids for long URLs.
They can list, view, edit and delete their own links, and anyone can follow a short id to its target.
The server keeps two in-memory tables, `users` and `urlDatabase`, plus a cookie session that holds at most one `user_id`.
This project models:

- the lookups in `helpers.js`;
- the duplicate email lookup in `views/helpers.js`;
- the guard-then-mutate logic of every route handler in `express_server.js`.

It proves what these promise: only a link's owner sees it on its detail page or in the list, updates it, or deletes it; a rejected request changes nothing; registration keeps emails unique; and an update or delete touches one key. Two caveats come from generated ids that repeat an existing key:

- a create whose id repeats a link's key replaces that link, whoever owns it;
- a registration whose id repeats a user's key replaces that user, and the new registrant then owns every link the replaced user owned.

The unguarded `GET /urls.json` sends the whole link table to any client (see Left out).

Modules, one per source file or collaborator:

- `Tables` (`tables.dfy`): a JavaScript object used as a dictionary.
  - `Dict` pairs the for-in key order (`keys`) with the contents (`vals`).
  - `Get`, `Put` and `Remove` are `o[k]`, `o[k] = v` and `delete o[k]`.
  - `Put` keeps an existing key in its place and appends a new key.
- `Bcrypt`, `Records` (`records.dfy`): the idealised bcrypt digest, the `User` and `Link` records, and JavaScript truthiness of form fields.
  - A form field is `Option<string>`; `None` is a field missing from the body (`undefined`).
- `ViewHelpers` (`view_helpers.dfy`): `getUserByEmail` as a recursive search, with its properties.
- `Helpers` (`helpers.dfy`): the loops of `helpers.js` as methods, each proved equal to a specification function.
  - `GetUserByEmail` is proved to return exactly what the `ViewHelpers` copy returns.
- `Server` (`server.dfy`): the `Guard`, the `/u/:id` handler and the class `TinyApp`.
  - `TinyApp` has fields `users`, `urlDatabase` and `session`, and one method per route.
  - The methods that change state state their whole new state, response by response.
  - They also preserve `Consistent()`: users keyed by their own id, emails unique, every link owned by a registered user.
- `Walkthrough` (`walkthrough.dfy`): three client methods that follow an ownership scenario through the handlers' contracts alone: the owner sees a link, another user is refused, and a deleted link is gone.

Inputs that the source draws from the environment are parameters:

- the six `Math.random()` values behind an id (`rolls`);
- bcrypt's salt;
- the request body fields;
- the initial tables that `./data` provides (the `TinyApp` constructor).

Where the code's evident intent (such as the check on express_server.js line 92) and what it does differ, the model follows what it does:

- `GET /u/:id` for an unknown id throws a TypeError rather than answering 404 (see Findings).
- A logged-out delete answers 400, while a logged-out update or create answers 403, and a logged-out `GET /urls/:id` answers 200 with a message.
- When `req.session.user_id` is unset, `users[req.session.user_id]` reads the key `"undefined"`. So "logged out" means that no user is stored under that key. `SessionKey` models this.
- `POST /login` with an existing email but no password field passes `undefined` to bcryptjs's `compareSync`. That call throws instead of answering 403 (`Thrown`).

## Model

| member | source | states |
|---|---|---|
| `Tables.Dict.Get` | helpers.js:35 | `o[k]`: present exactly when `k` is a key, and then the value stored under `k` |
| `Tables.Empty` | helpers.js:44 | `{}`: a well-formed table in which every key reads as `undefined` |
| `Tables.Dict.Put` | express_server.js:132-136 | `o[k] = v`: afterwards `k` holds `v`, every other key holds what it held, the table stays well formed, and a new key is visited last while an existing one keeps its place |
| `Tables.Dict.Remove` | express_server.js:197 | `delete o[k]`: `k` is gone, every other key holds what it held, and the remaining keys keep their relative order |
| `Bcrypt.HashSync` | express_server.js:131 | the digest records the cost and salt and is accepted by `CompareSync` for the password it was made from |
| `Bcrypt.CompareSyncOnlyOriginal` | express_server.js:144 | a digest accepts exactly the password it was made from, whatever the cost and salt |
| `Bcrypt.CompareSync` | express_server.js:144 | the idealised `compareSync` for a string password: true exactly when hashing the password with the digest's own cost and salt gives that digest, so it accepts exactly the password the digest was made from (the 72-byte truncation is under Left out) |
| `Records.Truthy` | express_server.js:123 | `!f` is false exactly when the field is present and not the empty string: an absent field and `""` are falsy, any other string is truthy; the same test decides the 404 on a stored `longURL` at line 92 |
| `ViewHelpers.Scan` | views/helpers.js:8-13 | the search from position `i` returns `null` exactly when no later user has the email, and otherwise the user at the first matching position from `i` |
| `ViewHelpers.GetUserByEmail` | views/helpers.js:7-14 | a returned user is stored in the table and has exactly the email asked for; `null` exactly when no stored user has it; the result is the user at the first matching position of the iteration order |
| `ViewHelpers.FirstMatchIsReturned` | views/helpers.js:8-11 | whichever position matches first is the one returned, so a later entry with the same email is never returned |
| `ViewHelpers.UniqueEmailLookup` | views/helpers.js:7-14 | when emails are unique, the lookup returns the one user holding the email, wherever it sits in the order |
| `Helpers.Pick` | helpers.js:24 | `Math.floor(r * chars.length)` for `0 <= r < 1` is a valid index into the 62-character alphabet |
| `Helpers.Token` | helpers.js:21-26 | the string built from the draws has one character per draw, each from the alphabet |
| `Helpers.EveryTokenReachable` | helpers.js:20-27 | every string over the alphabet is produced by some draws, so ids range over all 62^n strings |
| `Helpers.GenerateRandomString` | helpers.js:20-27 | the loop returns the token of its six draws: six characters, each in the 62-character alphabet |
| `Helpers.GetUserByEmail` | helpers.js:7-14 | the for-in loop with early return computes exactly what the copy in views/helpers.js computes, on every input |
| `Helpers.GetUserByID` | helpers.js:34-36 | `users[id]`: present exactly when `id` is a key, and then the record stored under `id` |
| `Helpers.Collect` | helpers.js:44-49 | after visiting some keys, the accumulator holds exactly the visited entries owned by `id`, each the very record stored under that key, in visiting order |
| `Helpers.UserUrls` | helpers.js:43-51 | every entry belongs to `id` and is the record stored under the same key; every entry of the table owned by `id` is included; keys keep the table's order |
| `Helpers.UrlsForUser` | helpers.js:43-51 | the loop builds exactly `UserUrls(id, urlDatabase)`, leaving the table as it was |
| `Server.Guard` | express_server.js:172-180 | the three link checks in order: logged out, then unknown id, then not the owner; access is granted exactly when a user is logged in, the link exists and records that user's id |
| `Server.FollowAsWritten` | express_server.js:89-96 | as written, an unknown id throws a TypeError; for a known id the answer is the corrected one |
| `Server.FollowAsWrittenThrowsOnUnknownId` | express_server.js:91-93 | on an empty table, GET /u/b2xVn2 throws as written, while the corrected handler answers 404 |
| `Server.Follow` | express_server.js:89-96 | redirects exactly when the id is known and its stored `longURL` is truthy, and then to that stored `longURL` exactly; otherwise 404 |
| `Server.SessionKey` | express_server.js:46 | the property key `users[req.session.user_id]` reads: the session's id when set, the string "undefined" when unset |
| `Server.TinyApp.CurrentUser` | express_server.js:46 | `getUserByID(req.session.user_id, users)`: a user exactly when the session key is a key of `users`, and then the user stored under it; logged out whenever no id is set and no user is stored under "undefined" |
| `Server.TinyApp.constructor` | express_server.js:18 | the server starts from the seeded tables with no session |
| `Server.TinyApp.ListUrls` | express_server.js:45-56 | logged out: the login prompt; logged in: the index page listing exactly `UserUrls(user.id)`, so every listed link is the caller's |
| `Server.TinyApp.NewUrlForm` | express_server.js:58-67 | logged out: redirect to /login; logged in: the creation form |
| `Server.TinyApp.ShowUrl` | express_server.js:69-87 | answers by `Guard` (prompt, 404, 403); the detail page with the stored `longURL` is rendered only for the owner |
| `Server.TinyApp.LoginForm` | express_server.js:98-107 | a logged-in user is redirected to /urls; otherwise the login form with no user |
| `Server.TinyApp.RegisterForm` | express_server.js:109-118 | a logged-in user is redirected to /urls; otherwise the registration form with no user |
| `Server.TinyApp.Register` | express_server.js:121-139 | a missing or empty field gives 400 and a taken email gives 400, both with nothing changed; otherwise exactly one entry `{id, email, digest}` is put under the generated id, the session is set to it and the client goes to /urls; the link table never changes, unique emails stay unique whatever the seed tables, and `Consistent()` is preserved |
| `Server.TinyApp.Login` | express_server.js:141-149 | no matching user or a rejected password gives 403 with the session unchanged; a missing password for a known email throws; otherwise the session becomes that user's id; the session changes only for a stored user whose digest accepts the password |
| `Server.TinyApp.Logout` | express_server.js:151-154 | removes the session's user id and redirects to /login; the tables do not change |
| `Server.TinyApp.CreateUrl` | express_server.js:156-167 | logged out: 403 with the table unchanged; otherwise `{longURL, userID: user.id}` is put under the generated id, overwriting any link already there, and the client goes to /urls/<id> |
| `Server.TinyApp.UpdateUrl` | express_server.js:169-183 | logged out 403, unknown 404, not owner 403, each leaving the table unchanged; the owner's update replaces only that link's `longURL`, keeping its `userID`, every other entry and the key order; the table changes only for the owner |
| `Server.TinyApp.DeleteUrl` | express_server.js:185-199 | logged out 400, unknown 404, not owner 403, each leaving the table unchanged; the owner's delete removes exactly that key; the table changes only for the owner |

## Left out

- Express wiring is not modelled: `express.urlencoded`, `cookieSession`, `morgan`, the view engine and `app.listen` (express_server.js:12-30, 202-204). The routes `/` and `/hello` (express_server.js:33-39) send a constant reply. `GET /urls.json` (express_server.js:41-43) sends the whole live `urlDatabase`, every link's `longURL` and `userID`, to any client, logged in or not; it is not modelled.
- Templates are not rendered. A handler's answer is a `Response` value, and `Render` carries the template variables.
- The body parser's extended syntax, which can turn a field into an array or an object, is not modelled. A field is a string or absent.
- bcrypt is idealised as a collision-free commitment (`Digest`); its 72-byte password truncation is named under `Bcrypt.CompareSyncOnlyOriginal` above. Its 60-character encoding is not modelled, nor `compareSync` returning false on a malformed stored hash. Its random salt is a parameter.
- `Math.random()` is replaced by its return values (`rolls`). Floating-point multiplication is modelled over the reals; `Math.floor(r * 62)` stays below 62 in both.
- config.js holds only constants (port, cookie keys, max age) and is not part of this model. `./data` is not part of this model either: the constructor accepts any well-formed tables.
- Cookie signing and session expiry are not modelled. The model holds the session slot of the one client being served.
- JavaScript visits keys that look like array indices (such as an all-digit generated id) first, in ascending numeric order. `Tables.Dict.Put` always places a new key last. This affects only the listing order and which of two users sharing an email is found first.
- Properties inherited from `Object.prototype` (for instance `users["constructor"]`) are not modelled. A table holds only its own keys.
- Bcrypt.CompareSync: idealised as a collision-free check; it does not capture the 72-byte truncation described on the next line.
- Bcrypt.CompareSyncOnlyOriginal: states a collision-free hash. bcryptjs hashes only the first 72 bytes of the UTF-8 password, so `compareSync` (express_server.js:144) also accepts any password that shares a 72-byte prefix with the registered one. The model does not capture that truncation.
- The chance that a generated id repeats an existing key is not modelled. `EveryTokenReachable` states only the range of ids; `CreateUrl` and `Register` state the overwrite that a repeat causes.
- Aliasing is not modelled. `urlsForUser` copies references to the stored records, and the update handler changes a record in place. The model stores record values and replaces the value under the key. No reference to a record survives a request, so the two cannot be told apart.

## Findings

| source | as written | input that shows it | evidently intended | confidence | as-written member | corrected member |
|---|---|---|---|---|---|---|
| express_server.js:91-93 | `urlDatabase[id].longURL` is read before the `!longURL` check, so for an unknown id the read throws a TypeError and Express answers 500 | GET /u/b2xVn2 when `b2xVn2` is not a key of `urlDatabase` | answer 404 "Short URL not found!" for an unknown id, as the check on line 92 is written to do | high (not executed) | `Server.FollowAsWrittenThrowsOnUnknownId` | `Server.Follow` |
