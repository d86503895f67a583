# Verified model of the todo backend's token endpoint, ownership filter and todo endpoints

This project models, in Dafny, the decision and state logic of a small ASP.NET
Core todo backend that issues OAuth2 tokens through OpenIddict:

- **The token endpoint** (`AuthController`). `Login` dispatches on the grant
  type. The password grant looks the user up by name and checks the password.
  The refresh-token grant checks the authentication result, then the subject
  claim, then the user. Any other grant type is a bad request. Each failure
  carries a fixed error message.
- **The principal** that `GenerateTokenAsync` builds in place on a
  `ClaimsIdentity`. It holds the subject, e-mail, name and role claims, the
  requested scopes, and the destinations `GetDestinations` gives each claim.
  This is the destination mechanism of OpenIddict and OpenID Connect. The
  identity token is gated by the `profile`, `email` and `roles` scopes of
  section 5.4 of OpenID Connect Core 1.0.
- **The ownership filter** (`LoggedInUserAttribute.OnActionExecuting`). It
  runs before update and delete. It answers Unauthorized when there is no
  caller, BadRequest when there is no Guid `todoId` argument, Unauthorized
  when the todo is missing or owned by someone else, and otherwise lets the
  action run.
- **The todo endpoints** (`TodosController`). Create appends one owned todo.
  List filters by owner and not-deleted, then pages five at a time. Update
  overwrites fields in place. Delete is a soft delete: it stamps `DeletedAt`.

Files: `Wrappers.dfy` (Option), `AuthController.dfy`, `TodoData.dfy` (the todo
record, the store class and key lookup), `LoggedInUserAttribute.dfy`,
`TodosController.dfy`.

How the framework is abstracted:

- The user store is a sequence of users. The todo store is a class whose
  `todos` field is a sequence in store order, with unique keys.
- The password check is an oracle `(User, string) -> bool`.
- The authentication of a refresh token is an input: failure, or the
  subject claim of the validated principal.
- `SignIn` is modelled by returning the principal that would be signed in.
- `DateTime.UtcNow` is a `now` parameter and a UTC time is an `int`.
- A Guid is a `nat`. The key EF Core generates for a new todo is a `newId`
  parameter.
- The caller id is an `Option<string>` input.

Points where the code's behaviour is easy to misread:

- The code attaches the requested scopes unchanged. It does not intersect them
  with the registered scopes.
- On the refresh grant, the scopes come from the refresh request's own `scope`
  parameter, not from the original grant.
- A missing subject claim has its own message, "Invalid user ID in refresh
  token.", separate from "Invalid refresh token.".
- The list query has no `OrderBy`, so the database promises no order. The
  model lists in store order.
- The skip count `(pageNumber - 1) * pageSize` is computed in unchecked 32-bit
  `int`. Up to page 429496730 it is exact. Past that it wraps around: page
  429496731 gives a negative skip count and the query fails, and page
  858993461 skips only 4 todos.

## Model

| member | source | states |
|---|---|---|
| `AuthController.FindByName` | TodoAppBackend/Controllers/AuthController.cs:44 | A user is found only if it is in the store and has that user name; None means no stored user has that name |
| `AuthController.FindById` | TodoAppBackend/Controllers/AuthController.cs:75 | A user is found only if it is in the store and has that id; None means no stored user has that id |
| `AuthController.GetDestinations` | TodoAppBackend/Controllers/AuthController.cs:103-127 | The security-stamp claim gets no destinations. Every other claim goes to the access token, listed first. The identity token is added iff the claim type has a gating scope (name: profile, email: email, role: roles) and the holding identity has that scope; other types, the subject among them, never go there. Never more than two destinations, never a duplicate |
| `AuthController.Routed` | TodoAppBackend/Controllers/AuthController.cs:98 | Routing keeps the number, order, types and values of the claims and sets each claim's destinations to what GetDestinations selects for it under the identity's scopes |
| `AuthController.ClaimsIdentity.SetClaim` | TodoAppBackend/Controllers/AuthController.cs:92-94 | Removes every claim of the type, then appends one claim with the value unless the value is null or empty; the scopes are unchanged |
| `AuthController.ClaimsIdentity.SetClaims` | TodoAppBackend/Controllers/AuthController.cs:95 | Removes every claim of the type, then appends one claim per distinct value, in first-occurrence order; the scopes are unchanged |
| `AuthController.ClaimsIdentity.SetScopes` | TodoAppBackend/Controllers/AuthController.cs:97 | The identity's scopes become the distinct requested scopes; the claims are unchanged |
| `AuthController.ClaimsIdentity.SetDestinations` | TodoAppBackend/Controllers/AuthController.cs:98 | Every claim gets the destinations GetDestinations selects under the identity's own scopes |
| `AuthController.GenerateTokenAsync` | TodoAppBackend/Controllers/AuthController.cs:88-102 | The chain of in-place mutations on a fresh identity produces exactly the principal BuildPrincipal describes |
| `AuthController.Login` | TodoAppBackend/Controllers/AuthController.cs:40-85 | BadRequest "Unsupported grant type." iff the grant is neither password nor refresh_token. Tokens are issued only for a stored user authenticated by the grant, with that user's principal. The only password-grant error is "Invalid username or password.". On the refresh grant, a failed authentication gives "Invalid refresh token." whatever else holds; a missing subject gives "Invalid user ID in refresh token."; an unknown subject gives "User not found." |
| `AuthController.PrincipalClaimValues` | TodoAppBackend/Controllers/AuthController.cs:92-95 | The principal's subject claim is the user's id, and there is exactly one. E-mail and name claims hold the user's e-mail and name when set (none when null or empty). The role claims are the user's distinct roles, one claim per role |
| `AuthController.PrincipalClaimRouting` | TodoAppBackend/Controllers/AuthController.cs:97-98 | The principal's scopes are the requested ones, unfiltered and without repeats. Its claims are only of the subject, e-mail, name and role types. Each claim carries what GetDestinations gives it, so each reaches the access token. A claim reaches the identity token iff its gating scope was requested |
| `AuthController.NoScopesNoIdentityTokenClaims` | TodoAppBackend/Controllers/AuthController.cs:107-125 | With no scope requested, every claim of the principal goes to the access token only |
| `AuthController.NoUserEnumeration` | TodoAppBackend/Controllers/AuthController.cs:44-54 | On the password grant, an unknown user name and a known user with a wrong password give the identical Unauthorized "Invalid username or password." |
| `AuthController.AuthenticatedUserSignsIn` | TodoAppBackend/Controllers/AuthController.cs:42-82 | The user found by name with the right password, or the user found by the refresh token's subject, is signed in with its principal for the requested scopes |
| `AuthController.SignedInSubject` | TodoAppBackend/Controllers/AuthController.cs:44-82 | A signed-in principal's subject is the authenticated user's id. On the refresh grant it is exactly the subject the refresh token carried. On the password grant it is the id of a stored user with that name whose password checked |
| `TodoData.IndexOf` | TodoAppBackend/Controllers/TodosController.cs:71 | The result is the first position holding the key; None means no todo has it |
| `TodoData.Find` | TodoAppBackend/Filters/LoggedInUserAttribute.cs:20 | A found todo is in the store and has the key, deleted or not; None means no todo has the key |
| `LoggedInUserAttribute.TodoIdOf` | TodoAppBackend/Filters/LoggedInUserAttribute.cs:17 | The `todoId` argument is produced iff it is present and a Guid, and then it is that Guid |
| `LoggedInUserAttribute.Authorize` | TodoAppBackend/Filters/LoggedInUserAttribute.cs:9-30 | No caller id gives Unauthorized whatever the arguments. BadRequest iff there is a caller and no Guid `todoId`. A key not in the store gives Unauthorized. Allow only when a stored todo with that key is owned by the caller. The soft-delete stamp plays no part |
| `LoggedInUserAttribute.OnActionExecuting` | TodoAppBackend/Filters/LoggedInUserAttribute.cs:7-33 | Sets the context result to Unauthorized or BadRequest as Authorize decides, leaves it untouched when allowed, and cannot change the store (the store is outside its frame) |
| `LoggedInUserAttribute.AllowsExactlyTheOwner` | TodoAppBackend/Filters/LoggedInUserAttribute.cs:9-30 | With unique keys, the filter allows iff there is a caller, there is a Guid `todoId`, a todo with that key exists, and its owner is the caller |
| `TodosController.Updated` | TodoAppBackend/Controllers/TodosController.cs:71-81 | Store size, every key, owner and deletion stamp are unchanged. Todos with other keys are unchanged. A missing key changes nothing. The found todo gets the dto's title, body and completion flag and `updatedAt = now` |
| `TodosController.SoftDeleted` | TodoAppBackend/Controllers/TodosController.cs:91-98 | Store size is unchanged and every field but the deletion stamp is unchanged. Todos with other keys are unchanged. A missing key changes nothing. The found todo is still found, now with `deletedAt = now` |
| `TodosController.Visible` | TodoAppBackend/Controllers/TodosController.cs:58 | A todo is kept iff it is in the store, owned by the user and not soft-deleted |
| `TodosController.Wrap32` | TodoAppBackend/Controllers/TodosController.cs:59 | Unchecked `int` arithmetic: the result is in the range of `int`, equals the input when that is in range, and differs from it by a multiple of 2^32 |
| `TodosController.SkipCount` | TodoAppBackend/Controllers/TodosController.cs:56-59 | The skip count is an `int`; whenever (N-1)*5 fits in `int`, in particular for every page from 1 to 429496730, it is exactly (N-1)*5 |
| `TodosController.Slice` | TodoAppBackend/Controllers/TodosController.cs:59-60 | Skip then Take gives min(5, what remains) items, and its k-th item is the item at the skip count plus k |
| `TodosController.Page` | TodoAppBackend/Controllers/TodosController.cs:56-61 | The query fails iff the skip count is negative. While (N-1)*5 fits in `int`, page N fails iff N < 1, and otherwise it is the slice at (N-1)*5 |
| `TodosController.GetUserTodos` | TodoAppBackend/Controllers/TodosController.cs:46-63 | Unauthorized iff no user is resolved. Server error iff there is a user and the skip count is negative. Otherwise the answer is the slice, at the skip count, of the caller's todos that are not soft-deleted: at most 5 todos, each in the store, owned by the caller and not deleted |
| `TodosController.GetUserTodosAsWritten` | TodoAppBackend/Controllers/TodosController.cs:48-54 | As written the handler never answers Unauthorized. Without a resolved user it fails with a server error; with one it answers as GetUserTodos |
| `TodosController.CreateTodo` | TodoAppBackend/Controllers/TodosController.cs:23-42 | No caller id gives Unauthorized and an unchanged store. Otherwise exactly one todo is appended, with the dto's title and body, owned by the caller, not completed, not deleted; existing todos are unchanged and keys stay unique |
| `TodosController.UpdateTodo` | TodoAppBackend/Controllers/TodosController.cs:69-85 | The new store is Updated of the old one. A missing key gives NotFound; otherwise Ok with the updated todo. Keys stay unique |
| `TodosController.DeleteTodo` | TodoAppBackend/Controllers/TodosController.cs:89-102 | The new store is SoftDeleted of the old one. A missing key gives NotFound; otherwise NoContent. Keys stay unique |
| `TodosController.GuardedUpdate` | TodoAppBackend/Controllers/TodosController.cs:67-85 | When the filter denies, the store is unchanged and the filter's result is the answer. When it allows, the update is applied to the `todoId` argument's todo |
| `TodosController.GuardedDelete` | TodoAppBackend/Controllers/TodosController.cs:87-102 | When the filter denies, the store is unchanged and the filter's result is the answer. When it allows, the `todoId` argument's todo is soft-deleted and the answer is NoContent |
| `TodosController.CreateAddsToOwnersListing` | TodoAppBackend/Controllers/TodosController.cs:39 | After a create, the owner's listing gains exactly the new todo (last, in the model's store order) and every other user's listing is unchanged |
| `TodosController.PagesDisjoint` | TodoAppBackend/Controllers/TodosController.cs:59-60 | Two different pages from 1 to 429496730 of items with unique keys both succeed and share no todo |
| `TodosController.ItemOnItsPage` | TodoAppBackend/Controllers/TodosController.cs:59-60 | Item k, for k below 5 * 429496730, is on page k/5+1 at position k%5, so paging skips no such item |
| `TodosController.ListedOnItsPage` | TodoAppBackend/Controllers/TodosController.cs:56-63 | The caller's k-th live todo, for k below 5 * 429496730, is listed by the endpoint on page k/5+1 at position k%5 |
| `TodosController.ListedPagesDisjoint` | TodoAppBackend/Controllers/TodosController.cs:56-61 | Two different pages from 1 to 429496730 of one user's listing both succeed and share no todo |
| `TodosController.SkipCountWrapsAround` | TodoAppBackend/Controllers/TodosController.cs:59 | Past page 429496730 the skip count wraps: page 429496731 fails, and page 858993461 skips 4 items, so it shares item 4 with page 1 |
| `TodosController.DeletedTodoNotListed` | TodoAppBackend/Controllers/TodosController.cs:98 | After a soft delete no user's listing contains the todo, yet it is still found by its key |
| `TodosController.GuardIgnoresSoftDelete` | TodoAppBackend/Filters/LoggedInUserAttribute.cs:20-22 | The filter's verdict is the same before and after any soft delete, so the owner may still act on a deleted todo |
| `TodosController.AllowedChangesOnlyCallersTodo` | TodoAppBackend/Controllers/TodosController.cs:68 | When the filter allows, every todo that the update or the delete changes is owned by the caller |
| `TodosController.NonOwnerRefused` | TodoAppBackend/Filters/LoggedInUserAttribute.cs:22-25 | A caller asking about a todo that someone else owns gets Unauthorized, so neither update nor delete reaches the store |
| `TodosController.ListWithoutUserFails` | TodoAppBackend/Controllers/TodosController.cs:48-54 | With no resolved user, the listing as written fails with a server error, where the corrected one answers Unauthorized |

`TodosController.CrossUserScenario` also shows the endpoints on a concrete run.
User A creates a todo. User B's update and delete are refused and leave the
store as it was. A's own update succeeds.

## Left out

- `Register`: a thin wrapper over ASP.NET Identity's `UserManager.CreateAsync`, whose validation rules live in the library.
- Password hashing and `CheckPasswordSignInAsync`: modelled as the oracle `checkPassword`.
- Token signing, encryption, reference-token storage and introspection: library calls. The refresh token's authentication is an input. `SignIn` returns the principal.
- OpenIddict's own request validation before the passthrough: it rejects disallowed grant types, unregistered scopes and missing user names or passwords. The model takes the user name and password as present strings.
- Scopes are kept as a separate list on the identity. OpenIddict stores them as private claims, which `GetDestinations` would route to the access token by its default case.
- User-name normalisation in `FindByNameAsync`: names are compared exactly.
- How the caller id is read from the claims (`ClaimTypes.NameIdentifier` against the `sub` mapping in Program.cs): an `Option<string>` input.
- Program.cs and OpenIddictServiceExtensions.cs: dependency injection, middleware, CORS, HTTPS, Swagger and key setup.
- ApplicationDbContext.cs: EF Core configuration. Cascade delete of a user's todos is done by the database.
- Models/Todo.cs is not part of this model. Its fields are those the controllers use. `CreatedAt` is left out. A new todo is taken to start not completed, with no update or deletion stamp.
- async/await, `SaveChangesAsync` and EF query translation. Concurrent requests, and the gap between the filter's read and the action's read, are not modelled.
- `Page`, `GetUserTodos`: a negative skip count is taken to make the query fail (a server error). MySQL refuses a negative OFFSET, but the exact failure depends on EF Core's SQL translation, which is not modelled. The page number is the C# `int` parameter, so it is taken to be in the range of `int`; how model binding treats a query value outside it is not modelled.
- `CreateTodo`: appends the new todo at the end of the store sequence. The database promises no position for a new row, and the list query has no `OrderBy`, so the model's listing order is one order the database may return, not the only one.
- `CreateTodo`: requires the generated Guid key to be unused; a Guid collision is not modelled.
- `GuardedUpdate`, `GuardedDelete`: require that no result is set on the context before the filter runs, as at the start of the MVC filter pipeline.

## Findings

| source | as written | input that shows it | evidently intended | confidence | as-written member | corrected member |
|---|---|---|---|---|---|---|
| TodoAppBackend/Controllers/TodosController.cs:48-54 | `GetUserIdAsync` is called on the result of `GetUserAsync`, which is null when no user is resolved. `GetUserIdAsync` throws on a null user, and a resolved user's id is never null. So the `userId == null` check never answers Unauthorized | a valid access token whose user has since been deleted from the user store | answer 401 Unauthorized | medium, not executed (rests on ASP.NET Identity's `UserManager.GetUserIdAsync` rejecting a null user) | `TodosController.GetUserTodosAsWritten` (see `TodosController.ListWithoutUserFails`) | `TodosController.GetUserTodos` |
