# Game catalogue front-end: session, route guard and data clients

This project models the logic of a small Vue front-end for a catalogue of games.
An admin area lets a signed-in user add and delete games. The logic lives in four places:

- **Shared browser storage.** `localStorage` holds the keys `token`, `userId` and `isLoggedIn`.
  It is modelled as a `LocalStorage` object around a `map<string, string>`, and every client holds the same reference.
- **Persisted login flag** (`src/modules/state.ts`). The flag is decoded from the stored string at start-up.
  A watcher writes `String(flag)` back whenever the flag changes.
- **Game client** (`src/modules/useGames.ts`). A class with the fields `games`, `error`, `addError` and `loading`.
  Its methods are `FetchGames`, `AddGame`, `DeleteGame` and `RemoveGameFromState`.
  It also has pure helpers for the credential check, the platform validation, the platform join and the record sent to the backend.
- **User client** (`src/modules/useUsers.ts`). A class with the refs `loading`, `token`, `isLoggedIn` and `error`.
  Its methods are `FetchToken`, `RegisterUser` and `Logout`.
- **Route guard** (`src/router/index.ts`). A pure function of the stored items, the destination and the current location.
  It returns `Proceed` or `Redirect(path)`.

No request is sent. Each backend reply is a parameter of the method that awaits it, using `Response<T>`:
- `Ok(body)`: an `ok` reply with a decoded body;
- `Rejected(errorField)`: a non-`ok` reply and its optional `error` string;
- `Threw(message)`: the request or the JSON decoding threw an error.

Given the reply, each method's new state is fully determined. The methods `AddGame` and `DeleteGame` also return the request they issued, if any, including its `auth-token` header.

Files: `outcomes.dfy`, `web_storage.dfy`, `types.dfy`, `login_flag.dfy`, `platforms.dfy`, `games.dfy`, `users.dfy`, `router.dfy`.

Behaviour of the code worth knowing:
- The list failure message is `No data available!`.
- `fetchToken` and `registerUser` return nothing.
- The `isLoggedIn` that `useUsers` sets is a ref of that composable, separate from the shared flag of `state.ts`. Logging in or out does not write the `isLoggedIn` storage key.
- `deleteGame` fails when the user id is missing, although it only sends the token.
- After a successful create, `addGame` appends the returned game to the list and then re-fetches. If that re-fetch fails, the appended game stays. `AddGame` states this.

## Model

| member | source | states |
|---|---|---|
| `LoginFlag.Encode` | src/modules/state.ts:10 | the stored string is `true` or `false`, and it is `true` exactly when the flag is |
| `LoginFlag.Decode` | src/modules/state.ts:3 | the flag is true exactly when the stored value is present and equals `true` |
| `LoginFlag.DecodeEncode` | src/modules/state.ts:3-10 | decoding what the watcher wrote gives back the flag |
| `LoginFlag.DecodeRejectsOtherStrings` | src/modules/state.ts:3 | a missing key or any string other than `true` decodes to false |
| `LoginFlag.EncodeInjective` | src/modules/state.ts:10 | different flags are stored as different strings |
| `LoginFlag.AppState.constructor` | src/modules/state.ts:3-7 | the initial flag is the decoded stored string, so storage and flag agree |
| `LoginFlag.AppState.SetLoggedIn` | src/modules/state.ts:9-11 | the flag takes the new value; storage gets `String(newVal)` only on a change; agreement between storage and flag is preserved |
| `Platforms.Join` | src/modules/useGames.ts:49 | the empty selection joins to the empty string; a single tag joins to itself |
| `Platforms.SplitJoin` | src/modules/useGames.ts:48-50 | splitting the joined string at `", "` gives back the non-empty selection in order, when no tag contains the separator |
| `Platforms.JoinInjective` | src/modules/useGames.ts:49 | different non-empty selections of separator-free tags give different platform strings |
| `Platforms.JoinAppend` | src/modules/useGames.ts:49 | joining a concatenation is joining the parts with the separator between them (input order is kept) |
| `Games.GetTokenAndUserId` | src/modules/useGames.ts:32-40 | fails with `Not authenticated!` exactly when no non-empty token is stored; fails with `No user id available!` exactly when a token is stored but no non-empty user id; otherwise returns both stored strings unchanged |
| `Games.ValidateGame` | src/modules/useGames.ts:42-46 | rejects, with `Please select at least one platform!`, exactly when the selection is empty |
| `Games.ValidateIgnoresGame` | src/modules/useGames.ts:42-46 | the verdict does not depend on the game |
| `Games.AddPrecheck` | src/modules/useGames.ts:72-74 | the pre-send checks of `addGame` pass exactly when both credentials are stored and a platform is selected; the missing token wins over a missing user id, which wins over an empty selection |
| `Games.WithDefaults` | src/modules/useGames.ts:52-66 | the record sent keeps the entered fields, gets the placeholder image, the joined platforms and the user id as creator |
| `Games.DefaultsIgnoreOtherFields` | src/modules/useGames.ts:55-65 | the record sent depends on the draft only through its entered fields |
| `Games.DefaultsKeepSelection` | src/modules/useGames.ts:52-66 | the sent platform string splits back into the selection |
| `Games.WithoutId` | src/modules/useGames.ts:124 | no game with the id remains; every other game is kept; the list does not grow |
| `Games.WithoutIdAppend` | src/modules/useGames.ts:124 | the filter distributes over concatenation, so the relative order is kept |
| `Games.WithoutIdAbsent` | src/modules/useGames.ts:124 | a list with no game of that id is unchanged |
| `Games.WithoutIdIdempotent` | src/modules/useGames.ts:123-126 | removing an id twice equals removing it once |
| `Games.DeleteGameFromServer` | src/modules/useGames.ts:109-121 | succeeds exactly on an `ok` reply; a rejection becomes `Failed to delete game! ` followed by the server's error text |
| `Games.ConvertPlatformsArrayToString` | src/modules/useGames.ts:48-50 | the draft's platform becomes the joined selection, and no other field changes |
| `Games.SetDefaultValues` | src/modules/useGames.ts:52-66 | converts the draft's platforms in place and returns the defaulted record |
| `Games.GameClient.constructor` | src/modules/useGames.ts:4-8 | the list starts empty, both error slots start null and `loading` starts false |
| `Games.GameClient.FetchGames` | src/modules/useGames.ts:10-30 | an `ok` reply replaces the list wholesale; a rejection keeps the list and sets `error` to `No data available!`; a thrown error keeps the list and records its message; `loading` ends false and `addError` is untouched |
| `Games.GameClient.AddGame` | src/modules/useGames.ts:68-107 | a failed pre-send check sends nothing, keeps the list, `error` and draft, and writes the message into `addError`; otherwise it sends the defaulted record with the stored token; a rejection or thrown error goes into `addError` and keeps the list; a success appends the game and then re-fetches; `loading` ends false |
| `Games.GameClient.RemoveGameFromState` | src/modules/useGames.ts:123-126 | the list becomes the list without that id, and nothing else changes |
| `Games.GameClient.DeleteGame` | src/modules/useGames.ts:128-143 | missing credentials send nothing and put the check's message in `error`; otherwise it sends the id with the stored token; on success it removes exactly the games with that id; on failure it keeps the list and sets `error` to the server's message; `loading` ends false |
| `Games.ClearedSessionIsUnauthenticated` | src/modules/useGames.ts:32-40 | once both session keys are removed, the credential check fails with `Not authenticated!` |
| `Users.LoginError` | src/modules/useUsers.ts:26-44 | a failed login is recorded as the server's non-empty error string, otherwise as `Invalid credentials`; a thrown empty message becomes `Failed to login` |
| `Users.RegisterError` | src/modules/useUsers.ts:63-75 | a failed registration is recorded as the server's non-empty message, otherwise as `Failed to register` |
| `Users.UserClient.constructor` | src/modules/useUsers.ts:4-13 | all refs start null, false or empty |
| `Users.UserClient.FetchToken` | src/modules/useUsers.ts:15-49 | success sets `token`, sets `isLoggedIn`, stores token and user id, and keeps an earlier `error`; failure keeps `token` and storage, clears `isLoggedIn` and records the login error; `loading` ends false |
| `Users.UserClient.RegisterUser` | src/modules/useUsers.ts:51-79 | never changes `token`, `isLoggedIn` or storage; failure records the registration error, and success keeps an earlier `error`; `loading` ends false |
| `Users.UserClient.Logout` | src/modules/useUsers.ts:81-89 | `token` becomes null, `isLoggedIn` false, and exactly the `token` and `userId` keys leave storage |
| `Users.LogoutTwice` | src/modules/useUsers.ts:81-85 | logging out twice leaves the same state as logging out once: session cleared, storage as after one logout, every other ref unchanged |
| `Router.Guard` | src/router/index.ts:34-41 | in the source's order: a destination needing auth without a non-empty stored token (`IsAuthenticated`, line 35) goes to `/login`; a signed-in navigation to login or register (`IsAuthPage`, line 39) goes back to `from.fullPath`; everything else proceeds; a redirect only ever targets `/login` or `from.fullPath` |
| `Router.Resolve` | src/router/index.ts:9-31 | a path resolves to the table entries with exactly that path |
| `Router.SomeRequiresAuth` | src/router/index.ts:36 | true exactly when some matched entry has `requiresAuth` |
| `Router.OnlyAdminRequiresAuth` | src/router/index.ts:10-31 | among the table's paths, only `/admin` requires authentication, and only `/login` and `/register` resolve to the login and register names |
| `Router.ProtectedNeedsToken` | src/router/index.ts:38 | a protected destination without a non-empty stored token is redirected to `/login` |
| `Router.EmptyTokenIsUnauthenticated` | src/router/index.ts:35-38 | a stored empty token counts as no token |
| `Router.SignedInLeavesAuthPages` | src/router/index.ts:39 | a signed-in navigation to login or register goes back to `from.fullPath` |
| `Router.SignedInFromLoginToRegister` | src/router/index.ts:39 | a signed-in navigation from `/login` to `/register` is redirected to `/login` |
| `Router.GuardTable` | src/router/index.ts:34-41 | the full decision over the route table: `/admin` needs a token, a signed-in user is sent back from the login and register pages, and everything else proceeds |
| `Router.SignedOutReachesAuthPages` | src/router/index.ts:22-40 | a signed-out navigation to `/login` or `/register` proceeds |
| `Router.OpenAndAdminPages` | src/router/index.ts:10-40 | `/` always proceeds; `/admin` proceeds when signed in |
| `Router.GuardReadsOnlyToken` | src/router/index.ts:35-36 | two storages with the same token get the same decision |
| `Router.GuardIgnoresLoginFlag` | src/router/index.ts:35 | the stored `isLoggedIn` string never affects the decision |
| `Router.RedirectSettles` | src/router/index.ts:38-39 | every redirect either returns to the current location or goes to `/login`, where the follow-up navigation proceeds |
| `Router.NoSelfRedirect` | src/router/index.ts:34-41 | a navigation that changes location is never redirected to its own path |
| `Router.ClearedSessionIsSignedOut` | src/router/index.ts:35-38 | after the session keys are removed, protected destinations redirect to `/login` |

## Left out

- HTTP: URLs, the base URL from the environment, the `Content-Type` header and JSON encoding and decoding. Each reply is an abstract parameter. A body that fails to decode is modelled as `Threw`.
- A success reply whose body lacks `data.token` or `data.userId` is not modelled; in the code such a reply stores the string `undefined`. An `error` field of a type other than string is not modelled either.
- Vue reactivity: refs are plain fields. The watcher is modelled as "on a change, also write storage", without its flush timing.
- Overlapping asynchronous calls are not modelled. Each method runs to completion before the next one starts.
- `console.log` output.
- The numeric values of `price` and `rating`. They are carried as opaque numbers and never computed with.
- Router: `createRouter` and history configuration are not modelled. Paths match exactly: case-insensitive and trailing-slash matching, parameters, query strings and hashes are out of scope, so `fullPath` is the path.
- Router: the router's own handling of duplicate navigations is not modelled. `NoSelfRedirect` assumes the navigation changes location.
- Router.SignedInLeavesAuthPages: the redirect back can be `/login` itself. A signed-in user going from `/login` to `/register` is sent to `/login` (`Router.SignedInFromLoginToRegister`). So the guard does not promise that a signed-in user is never sent to `/login`.
- Router.RedirectSettles: states one step of the guard. It does not model the router re-running the guard after a redirect, nor that a navigation to the current location is aborted before any guard runs.
- Users.UserClient: the `user`, `name`, `email` and `password` refs are modelled only as fields that the operations never change. The login and register request bodies are not modelled.
- The view layer, the build configuration and the end-to-end browser tests.
- Update, filter and search operations on games. They are not part of the code modelled here.
