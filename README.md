# Role-gated user management: access voter and user service

This project models the authorization core of a user/employee management
backend:

- **The permission voter** (`CustomAccessDecisionVoter`). An endpoint
  requires a collection of permission strings, and the caller's
  authentication carries a collection of authority strings. The voter grants
  access to an authenticated caller when some required string equals some
  granted string exactly. In every other case it denies. `AccessVoter.Vote`
  keeps the source's nested loop with early return. It is proved equal to
  `AccessVoter.Decide`, an existential definition. The lemmas state the
  voter's properties about that definition: denial without authentication,
  exact match only, never abstaining, independence from order and
  duplication, monotonicity, and that attributes without a value never grant.
- **The user service** (`UserService`). Each operation branches on the
  caller's role (ADMIN, MANAGER, EMPLOYEE, any other). It then refuses with
  `warning.accessDenied` or `error.notFound`, or reads or changes the user
  store. `Users.UserService` is a class that holds the user repository
  (`users: map<int, User>`), the role repository, and the employee
  repository as a map from user id to department id. The caller is an
  explicit parameter. A thrown `BadRequestException` becomes
  `Err(BadRequest(key))`. Dereferencing a null lookup result becomes
  `Err(NullPointer)`.

The model states the service's behaviour as the code has it, quirks included:

- `findUserById` has no `break` after its EMPLOYEE case. So an EMPLOYEE is
  always refused, even for their own id, although the role rules the system
  describes let an employee read their own record.
- The Employee-row branch of `createUser` is guarded by the EMPLOYEE test that
  has already refused. An `assert false` in that branch proves it
  unreachable. No employee row is ever written (`departmentOf` is unchanged).
- `updateUserById` stores the request's password unencoded, while
  `createUser` stores `encode(password)`.
- `updateUserById` looks up the role before the user. So a missing role is
  reported even when the user is missing too.
- `deleteUserById` answers a missing id with the message "User not found!",
  which is not an error. The store is left unchanged.
- `createUser` does not give a MANAGER's new account the manager's
  department. Nothing ties the new user to any department.

Collaborators whose code is not part of this model are the fields of
`Users.Collaborators`. These are the repository's custom queries, `PagingUtil.getOffset` and
`getTotalPage`, the password encoder, and the message lookup. The model does
not interpret them. Each custom query is a function of the whole store (the
user map and the employee departments), of the caller, and of its own
arguments.

## Model

| member | source | states |
|---|---|---|
| `AccessVoter.Supports` | src/main/java/com/lab/server/configs/security/CustomAccessDecisionVoter.java:16-18 | an attribute is supported exactly when it carries a (non-null) value |
| `AccessVoter.SupportsClass` | src/main/java/com/lab/server/configs/security/CustomAccessDecisionVoter.java:21-23 | every class of secured object is supported |
| `AccessVoter.Vote` | src/main/java/com/lab/server/configs/security/CustomAccessDecisionVoter.java:26-41 | the nested search with early return yields exactly `Decide(authentication, attributes)`; the secured object does not enter the result |
| `AccessVoter.DeniedWhenNotAuthenticated` | src/main/java/com/lab/server/configs/security/CustomAccessDecisionVoter.java:27-29 | an absent or unauthenticated caller is denied whatever the attributes |
| `AccessVoter.GrantedIffExactMatch` | src/main/java/com/lab/server/configs/security/CustomAccessDecisionVoter.java:31-38 | granted iff the caller is authenticated and some attribute value equals some authority string (both directions; equality only, no prefix or wildcard) |
| `AccessVoter.EmptyMeansDenied` | src/main/java/com/lab/server/configs/security/CustomAccessDecisionVoter.java:31-40 | no required attributes, or no granted authorities, means denied |
| `AccessVoter.NeverAbstains` | src/main/java/com/lab/server/configs/security/CustomAccessDecisionVoter.java:26-41 | the result is always GRANTED (1) or DENIED (-1), never ABSTAIN (0) |
| `AccessVoter.Monotone` | src/main/java/com/lab/server/configs/security/CustomAccessDecisionVoter.java:31-38 | more authorities or more attributes never turn GRANTED into DENIED |
| `AccessVoter.SameElementsSameDecision` | src/main/java/com/lab/server/configs/security/CustomAccessDecisionVoter.java:31-38 | the decision ignores the order and duplication of attributes and authorities |
| `AccessVoter.UnsupportedAttributesIrrelevant` | src/main/java/com/lab/server/configs/security/CustomAccessDecisionVoter.java:16-38 | removing the attributes `supports` rejects (null values) leaves the decision unchanged: a null requirement never matches |
| `Decimal.IntToString` | src/main/java/com/lab/server/services/UserService.java:216 | Java's rendering of the id in the message: non-empty, with a leading '-' exactly for negative ids |
| `Decimal.IntRoundTrip` | src/main/java/com/lab/server/services/UserService.java:216 | parsing the rendered id gives back the id |
| `Decimal.IntToStringInjective` | src/main/java/com/lab/server/services/UserService.java:216 | distinct ids render as distinct strings |
| `Users.RoleLabel` | src/main/java/com/lab/server/services/UserService.java:67 | the role's `name()` is "ADMIN", "MANAGER" or "EMPLOYEE" exactly for those three roles, so the string `switch` picks the enum's case |
| `Users.ResponseBuilder` | src/main/java/com/lab/server/services/UserService.java:232-239 | the response carries the projection's id, username, email and role name |
| `Users.ToResponse` | src/main/java/com/lab/server/services/UserService.java:162-167 | a stored user's response carries its id, username, email and its role's name; there is no password field |
| `Users.ResponseIgnoresPassword` | src/main/java/com/lab/server/services/UserService.java:224-229 | a user's response is the same whatever its stored password, so neither an encoded nor a raw password ever reaches the caller |
| `Users.BuildResponses` | src/main/java/com/lab/server/services/UserService.java:94 | the mapped list has the fetched list's length and element k is the response of element k |
| `Users.PageData` | src/main/java/com/lab/server/services/UserService.java:92-95 | a null list gives an empty page; otherwise the page is the list mapped element by element in order |
| `Users.DeleteSuccessMessage` | src/main/java/com/lab/server/services/UserService.java:216 | the success message is never the "User not found!" message |
| `Users.DeleteMessageIdentifiesUser` | src/main/java/com/lab/server/services/UserService.java:213-216 | equal success messages name the same id |
| `Users.UserService.constructor` | src/main/java/com/lab/server/services/UserService.java:50-62 | the service starts over the given repositories with every stored id keyed by itself and below the next id |
| `Users.UserService.GetAllUsersWithConditions` | src/main/java/com/lab/server/services/UserService.java:65-104 | succeeds iff the caller is ADMIN or MANAGER, otherwise the localized access-denied message; a page echoes page and perPage, takes totalRecord from the role's own count query, totalPage from getTotalPage, and data from the role's own fetch at getOffset(page, perPage) |
| `Users.UserService.FindUserById` | src/main/java/com/lab/server/services/UserService.java:107-127 | only ADMIN and MANAGER can succeed; EMPLOYEE (even for their own id) and any other role get access denied; ADMIN reads findUserById, MANAGER findUserByIdForManager, and a null projection is a NullPointer failure |
| `Users.UserService.CreateUser` | src/main/java/com/lab/server/services/UserService.java:130-168 | EMPLOYEE callers are refused first, then an unknown role id gives not-found, both with the store unchanged; otherwise exactly one user is added under a fresh id with the request's username and email, the encoded password and the resolved role, and the response names that role; the employee map never changes |
| `Users.UserService.UpdateUserById` | src/main/java/com/lab/server/services/UserService.java:170-206 | ADMIN passes, MANAGER passes iff both employee rows exist and share a department (a missing row is a NullPointer failure), others are refused; then a missing role, then a missing user, give not-found; every failure leaves the store unchanged; success replaces only the target's username, email, role and password, the password as given |
| `Users.UserService.DeleteUserById` | src/main/java/com/lab/server/services/UserService.java:209-217 | non-ADMIN callers are refused; a missing id answers "User not found!" with the store unchanged; otherwise exactly that id is removed and the message is "Delete user <id> successfully!" |
| `Users.UserService.GetCurrentUser` | src/main/java/com/lab/server/services/UserService.java:220-230 | the response of a stored user with the login name; a NullPointer failure iff no stored user has that name |

## Left out

- Spring wiring in `WebSecurityConfig`: the filter chain, CORS, the JWT filter,
  `permitAll`, and the `AffirmativeBased` composition with `AuthenticatedVoter`.
  These rest on library behaviour that is not part of this model.
- `RestExceptionsHandler` and `ErrorResponse`: mapping exceptions to HTTP
  statuses, localized messages and logging. Failures stay as `Failure` values.
- Localisation: only `getAllUsersWithConditions` passes its key through the
  message lookup (`getMessage`). The other operations carry the raw key, as the
  code does.
- `AccessVoter.Vote`: a `GrantedAuthority` whose `getAuthority()` is null would
  throw in `equals`. The model takes every authority string as non-null.
- `SecurityHelper.getCurrentUserLogin` and `BaseService.findByFields` are not
  part of this model. Each operation takes its caller as an explicit `User`.
  `GetCurrentUser` takes the login name. It assumes that `findByFields` returns
  some stored user with that name, or null when there is none.
- Repository queries with unseen SQL (`countAllUsersWithConditionsFor…`,
  `findAllUsersWithConditionsFor…`, `findUserById`, `findUserByIdForManager`)
  are uninterpreted functions of the user map, the employee departments, the
  caller and their arguments. Whether and how the MANAGER queries narrow to
  the caller's department is left open.
- `PagingUtil.getOffset` and `getTotalPage` are uninterpreted. No
  `ceil(totalRecord / perPage)` is claimed.
- Password hashing: BCrypt with cost 12 is salted, so two encodings of one
  password differ. The model's `encode` is a plain function, so it does not
  capture that.
- `Users.UserService.UpdateUserById`: when the department ids are compared at
  line 180, the model uses value equality. If `getDepartmentId()` returns a
  boxed `Integer`, Java's `!=` compares references. Equal ids outside the
  small-integer cache could then be refused. `EmployeeModel` is not part of this
  model.
- `Users.UserService.CreateUser`: ids are handed out by a counter above every
  stored id, standing in for the database's generated key. Uniqueness of
  usernames and emails is a database constraint and is not modelled.
- The request fields and repositories that only the unreachable Employee
  branch of `createUser` uses are not modelled. These are first and last name,
  date of birth, position, and the department and position repositories.
- Integer widths: `totalRecord` is a Java `long` and ids are `int`. The model
  uses unbounded integers, so it does not capture overflow.
- `@Transactional` rollback and read-only modes: a failure in the model simply
  changes nothing.
